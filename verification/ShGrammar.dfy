/** The command language of the shell (user/sh.c): command trees, the grammar over tokens
    that the parser implements, and a printer that adds parentheses only where needed. */
module ShGrammar {
  import opened Common

  const MAXARGS: nat := 10

  /** '<', '>' and '>>'. */
  datatype Mode = In | Out | Append

  datatype Redirect<W> = Redirect(mode: Mode, file: W)

  datatype Cmd<W> =
    | Exec(args: seq<W>)
    | Redir(cmd: Cmd<W>, to: Redirect<W>)
    | Pipe(left: Cmd<W>, right: Cmd<W>)
    | List(left: Cmd<W>, right: Cmd<W>)
    | Back(cmd: Cmd<W>)

  datatype Tok<W> = Word(w: W) | Bar | Open | Close | Semi | Amp | Arrow(mode: Mode)

  /** The ways parsing can end in panic. */
  datatype Error = MissingFile | MissingClose | Syntax | TooManyArgs

  datatype Parse<W> = Ok(cmd: Cmd<W>, rest: seq<Tok<W>>) | Err(error: Error)

  datatype Redirs<W> = Found(rs: seq<Redirect<W>>, rest: seq<Tok<W>>) | NoFile

  /** The tokens that end the words of a command: peek(ps, es, "|)&;"). */
  predicate Stops<W>(ts: seq<Tok<W>>) {
    ts == [] || ts[0].Bar? || ts[0].Close? || ts[0].Amp? || ts[0].Semi?
  }

  /** The command inside a list of redirections, the first one innermost. */
  function Wrap<W>(c: Cmd<W>, rs: seq<Redirect<W>>): (r: Cmd<W>)
    decreases |rs|
  {
    if rs == [] then c else Wrap(Redir(c, rs[0]), rs[1..])
  }

  // ----- the grammar -----

  function PRedirs<W>(ts: seq<Tok<W>>): (p: Redirs<W>)
    ensures p.Found? ==> |p.rest| <= |ts|
  {
    if ts == [] || !ts[0].Arrow? then Found([], ts)
    else if |ts| < 2 || !ts[1].Word? then NoFile
    else
      match PRedirs(ts[2..])
      case NoFile => NoFile
      case Found(rs, rest) => Found([Redirect(ts[0].mode, ts[1].w)] + rs, rest)
  }

  function PArgs<W>(ts: seq<Tok<W>>, args: seq<W>, rs: seq<Redirect<W>>): (p: Parse<W>)
    ensures p.Ok? ==> |p.rest| <= |ts|
    decreases |ts|
  {
    if Stops(ts) then Ok(Wrap(Exec(args), rs), ts)
    else if !ts[0].Word? then Err(Syntax)
    else if |args| + 1 >= MAXARGS then Err(TooManyArgs)
    else
      match PRedirs(ts[1..])
      case NoFile => Err(MissingFile)
      case Found(more, rest) => PArgs(rest, args + [ts[0].w], rs + more)
  }

  function PExec<W>(ts: seq<Tok<W>>): (p: Parse<W>)
    ensures p.Ok? ==> |p.rest| <= |ts|
    decreases |ts|, 0
  {
    if ts != [] && ts[0].Open? then
      match PLine(ts[1..])
      case Err(e) => Err(e)
      case Ok(c, rest) =>
        if rest == [] || !rest[0].Close? then Err(MissingClose)
        else
          match PRedirs(rest[1..])
          case NoFile => Err(MissingFile)
          case Found(rs, after) => Ok(Wrap(c, rs), after)
    else
      match PRedirs(ts)
      case NoFile => Err(MissingFile)
      case Found(rs, rest) => PArgs(rest, [], rs)
  }

  function PPipe<W>(ts: seq<Tok<W>>): (p: Parse<W>)
    ensures p.Ok? ==> |p.rest| <= |ts|
    decreases |ts|, 1
  {
    match PExec(ts)
    case Err(e) => Err(e)
    case Ok(c, rest) =>
      if rest == [] || !rest[0].Bar? then Ok(c, rest)
      else
        match PPipe(rest[1..])
        case Err(e) => Err(e)
        case Ok(d, after) => Ok(Pipe(c, d), after)
  }

  function Backs<W>(c: Cmd<W>, ts: seq<Tok<W>>): (p: Parse<W>)
    ensures p.Ok? && |p.rest| <= |ts|
    decreases |ts|
  {
    if ts == [] || !ts[0].Amp? then Ok(c, ts) else Backs(Back(c), ts[1..])
  }

  function PLine<W>(ts: seq<Tok<W>>): (p: Parse<W>)
    ensures p.Ok? ==> |p.rest| <= |ts|
    decreases |ts|, 2
  {
    match PPipe(ts)
    case Err(e) => Err(e)
    case Ok(c, rest) =>
      var b := Backs(c, rest);
      if b.rest == [] || !b.rest[0].Semi? then b
      else
        match PLine(b.rest[1..])
        case Err(e) => Err(e)
        case Ok(d, after) => Ok(List(b.cmd, d), after)
  }

  // ----- the printer -----

  function Words<W>(args: seq<W>): (r: seq<Tok<W>>) {
    if args == [] then [] else [Word(args[0])] + Words(args[1..])
  }

  /** A command where the grammar wants one without '|', '&' or ';'. */
  function ShowExec<W>(c: Cmd<W>): (r: seq<Tok<W>>)
    decreases c, if c.Exec? || c.Redir? then 0 else 1
  {
    match c
    case Exec(args) => Words(args)
    case Redir(d, to) => ShowExec(d) + [Arrow(to.mode), Word(to.file)]
    case Pipe(_, _) => [Open] + ShowPipe(c) + [Close]
    case List(_, _) => [Open] + ShowLine(c) + [Close]
    case Back(_) => [Open] + ShowBack(c) + [Close]
  }

  /** One where it wants a pipeline. */
  function ShowPipe<W>(c: Cmd<W>): (r: seq<Tok<W>>)
    decreases c, if c.Pipe? then 0 else if c.Exec? || c.Redir? then 1 else 2
  {
    if c.Pipe? then ShowExec(c.left) + [Bar] + ShowPipe(c.right) else ShowExec(c)
  }

  /** One where it wants a pipeline with any number of '&' after it. */
  function ShowBack<W>(c: Cmd<W>): (r: seq<Tok<W>>)
    decreases c, if c.Back? then 0 else 3
  {
    if c.Back? then ShowBack(c.cmd) + [Amp] else ShowPipe(c)
  }

  /** One where it wants a whole line. */
  function ShowLine<W>(c: Cmd<W>): (r: seq<Tok<W>>)
    decreases c, if c.List? then 0 else 4
  {
    if c.List? then ShowBack(c.left) + [Semi] + ShowLine(c.right) else ShowBack(c)
  }

  /** No command has more words than the parser takes. */
  predicate Fits<W>(c: Cmd<W>) {
    match c
    case Exec(args) => |args| < MAXARGS
    case Redir(d, _) => Fits(d)
    case Pipe(l, r) => Fits(l) && Fits(r)
    case List(l, r) => Fits(l) && Fits(r)
    case Back(d) => Fits(d)
  }

  // ----- what is printed is parsed back -----

  /** What may follow a printed pipeline. */
  predicate EndsPipe<W>(ts: seq<Tok<W>>) { ts == [] || ts[0].Close? || ts[0].Amp? || ts[0].Semi? }

  predicate EndsLine<W>(ts: seq<Tok<W>>) { ts == [] || ts[0].Close? }

  lemma {:induction false} WrapLast<W>(c: Cmd<W>, rs: seq<Redirect<W>>, r: Redirect<W>)
    ensures Wrap(c, rs + [r]) == Redir(Wrap(c, rs), r)
    decreases |rs|
  {
    if rs == [] {
      assert [r][1..] == [];
    } else {
      assert (rs + [r])[1..] == rs[1..] + [r];
      WrapLast(Redir(c, rs[0]), rs[1..], r);
    }
  }

  /** The tokens of a list of redirections. */
  function ShowRedirs<W>(rs: seq<Redirect<W>>): (r: seq<Tok<W>>) {
    if rs == [] then [] else [Arrow(rs[0].mode), Word(rs[0].file)] + ShowRedirs(rs[1..])
  }

  lemma {:induction false} ShowRedirsLast<W>(rs: seq<Redirect<W>>, r: Redirect<W>)
    ensures ShowRedirs(rs + [r]) == ShowRedirs(rs) + [Arrow(r.mode), Word(r.file)]
  {
    if rs == [] {
      assert ([r])[1..] == [];
      assert ShowRedirs([r]) == [Arrow(r.mode), Word(r.file)] + ShowRedirs([]);
      assert rs + [r] == [r];
    } else {
      assert (rs + [r])[1..] == rs[1..] + [r];
      ShowRedirsLast(rs[1..], r);
    }
  }

  lemma {:induction false} RedirsTrip<W>(rs: seq<Redirect<W>>, rest: seq<Tok<W>>)
    requires rest == [] || !rest[0].Arrow?
    ensures PRedirs(ShowRedirs(rs) + rest) == Found(rs, rest)
  {
    if rs == [] {
      assert ShowRedirs(rs) + rest == rest;
    } else {
      var ts := ShowRedirs(rs) + rest;
      assert ts == [Arrow(rs[0].mode), Word(rs[0].file)] + (ShowRedirs(rs[1..]) + rest);
      assert ts[2..] == ShowRedirs(rs[1..]) + rest;
      RedirsTrip(rs[1..], rest);
      assert rs == [Redirect(rs[0].mode, rs[0].file)] + rs[1..];
    }
  }

  /** The command inside the outer redirections, and those redirections. */
  function Core<W>(c: Cmd<W>): (r: Cmd<W>) { if c.Redir? then Core(c.cmd) else c }

  function Outer<W>(c: Cmd<W>): (r: seq<Redirect<W>>) { if c.Redir? then Outer(c.cmd) + [c.to] else [] }

  lemma {:induction false} CoreOuter<W>(c: Cmd<W>)
    ensures !Core(c).Redir? && Wrap(Core(c), Outer(c)) == c && (Core(c) == c || Core(c) < c)
    ensures ShowExec(c) == ShowExec(Core(c)) + ShowRedirs(Outer(c)) && (Fits(c) <==> Fits(Core(c)))
  {
    if c.Redir? {
      CoreOuter(c.cmd);
      WrapLast(Core(c), Outer(c.cmd), c.to);
      ShowRedirsLast(Outer(c.cmd), c.to);
      assert ShowExec(Core(c)) + ShowRedirs(Outer(c.cmd)) + [Arrow(c.to.mode), Word(c.to.file)]
          == ShowExec(Core(c)) + (ShowRedirs(Outer(c.cmd)) + [Arrow(c.to.mode), Word(c.to.file)]);
    }
  }

  /** One round of the loop over words. */
  lemma OneWord<W>(ts: seq<Tok<W>>, done: seq<W>, w: W, more: seq<Redirect<W>>, rest: seq<Tok<W>>)
    requires |done| + 1 < MAXARGS && ts != [] && ts[0] == Word(w) && PRedirs(ts[1..]) == Found(more, rest)
    ensures PArgs(ts, done, []) == PArgs(rest, done + [w], more)
  {
    var none: seq<Redirect<W>> := [];
    assert none + more == more;
  }

  lemma LastWord<W>(ts: seq<Tok<W>>, done: seq<W>, w: W, rs: seq<Redirect<W>>, rest: seq<Tok<W>>)
    requires |done| + 1 < MAXARGS && Stops(rest) && ts == [Word(w)] + (ShowRedirs(rs) + rest)
    ensures PArgs(ts, done, []) == Ok(Wrap(Exec(done + [w]), rs), rest)
  {
    RedirsTrip(rs, rest);
    assert ts[1..] == ShowRedirs(rs) + rest;
    OneWord(ts, done, w, rs, rest);
  }

  lemma MoreWords<W>(ts: seq<Tok<W>>, done: seq<W>, w: W, next: seq<Tok<W>>)
    requires |done| + 1 < MAXARGS && next != [] && next[0].Word? && ts == [Word(w)] + next
    ensures PArgs(ts, done, []) == PArgs(next, done + [w], [])
  {
    assert ts[1..] == next;
    OneWord(ts, done, w, [], next);
  }

  lemma WordsCons<W>(left: seq<W>, tail: seq<Tok<W>>)
    requires left != []
    ensures Words(left) + tail == [Word(left[0])] + (Words(left[1..]) + tail)
  {
    Regroup([Word(left[0])], Words(left[1..]), tail);
  }

  lemma ShiftWord<W>(done: seq<W>, left: seq<W>)
    requires left != []
    ensures done + left == (done + [left[0]]) + left[1..]
  {
    assert left == [left[0]] + left[1..];
    Regroup(done, [left[0]], left[1..]);
  }

  /** The words that are left, and the redirections after them. */
  lemma {:induction false} ArgsTrip<W>(done: seq<W>, left: seq<W>, rs: seq<Redirect<W>>, rest: seq<Tok<W>>,
                                       tail: seq<Tok<W>>)
    requires |done| + |left| < MAXARGS && left != [] && Stops(rest) && tail == ShowRedirs(rs) + rest
    ensures PArgs(Words(left) + tail, done, []) == Ok(Wrap(Exec(done + left), rs), rest)
    decreases |left|
  {
    var ts, next := Words(left) + tail, Words(left[1..]) + tail;
    WordsCons(left, tail);
    ShiftWord(done, left);
    if |left| == 1 {
      assert next == tail;
      LastWord(ts, done, left[0], rs, rest);
      assert (done + [left[0]]) + left[1..] == done + [left[0]];
    } else {
      WordsCons(left[1..], tail);
      MoreWords(ts, done, left[0], next);
      ArgsTrip(done + [left[0]], left[1..], rs, rest, tail);
    }
  }

  lemma ExecTripNone<W>(rs: seq<Redirect<W>>, rest: seq<Tok<W>>, ts: seq<Tok<W>>)
    requires Stops(rest) && ts == ShowRedirs(rs) + rest
    ensures PExec(ts) == Ok(Wrap(Exec([]), rs), rest)
  {
    RedirsTrip(rs, rest);
    assert ts != [] ==> !ts[0].Open?;
  }

  lemma ExecTripSome<W>(args: seq<W>, rs: seq<Redirect<W>>, rest: seq<Tok<W>>, ts: seq<Tok<W>>)
    requires 0 < |args| < MAXARGS && Stops(rest) && ts == Words(args) + (ShowRedirs(rs) + rest)
    ensures PExec(ts) == Ok(Wrap(Exec(args), rs), rest)
  {
    ArgsTrip([], args, rs, rest, ShowRedirs(rs) + rest);
    assert [] + args == args;
    assert ts[0] == Word(args[0]);
    assert PRedirs(ts) == Found([], ts);
  }

  lemma ExecTripWords<W>(args: seq<W>, rs: seq<Redirect<W>>, rest: seq<Tok<W>>, ts: seq<Tok<W>>)
    requires |args| < MAXARGS && Stops(rest) && ts == Words(args) + (ShowRedirs(rs) + rest)
    ensures PExec(ts) == Ok(Wrap(Exec(args), rs), rest)
  {
    if args == [] {
      ExecTripNone(rs, rest, ts);
    } else {
      ExecTripSome(args, rs, rest, ts);
    }
  }

  lemma OpenInside<W>(inside: seq<Tok<W>>, redirs: seq<Tok<W>>, rest: seq<Tok<W>>)
    ensures (([Open] + inside + [Close]) + redirs + rest)[1..] == inside + ([Close] + redirs + rest)
  {}

  /** A block in parentheses, once the line inside it parses back. */
  lemma ExecTripBlock<W>(c: Cmd<W>, inside: seq<Tok<W>>, rs: seq<Redirect<W>>, rest: seq<Tok<W>>)
    requires Stops(rest) && PLine(inside + ([Close] + ShowRedirs(rs) + rest)) == Ok(c, [Close] + ShowRedirs(rs) + rest)
    ensures PExec(([Open] + inside + [Close]) + ShowRedirs(rs) + rest) == Ok(Wrap(c, rs), rest)
  {
    var after := [Close] + ShowRedirs(rs) + rest;
    var ts := ([Open] + inside + [Close]) + ShowRedirs(rs) + rest;
    assert ts[1..] == inside + after by { OpenInside(inside, ShowRedirs(rs), rest); }
    assert ts[0] == Tok<W>.Open;
    assert after[1..] == ShowRedirs(rs) + rest;
    assert after[0] == Tok<W>.Close;
    RedirsTrip(rs, rest);
    assert PRedirs(after[1..]) == Found(rs, rest);
  }

  lemma {:induction false} ExecTrip<W>(c: Cmd<W>, rest: seq<Tok<W>>)
    requires Fits(c) && Stops(rest)
    ensures PExec(ShowExec(c) + rest) == Ok(c, rest)
    decreases c, if c.Pipe? then 4 else if c.Back? then 3 else if c.List? then 2 else 0
  {
    var d, rs := Core(c), Outer(c);
    CoreOuter(c);
    match d
    case Exec(args) =>
      assert ShowExec(c) + rest == Words(args) + (ShowRedirs(rs) + rest);
      ExecTripWords(args, rs, rest, ShowExec(c) + rest);
    case Pipe(_, _) =>
      BlockTrip(d, ShowPipe(d), rs, rest);
    case List(_, _) =>
      BlockTrip(d, ShowLine(d), rs, rest);
    case Back(_) =>
      BlockTrip(d, ShowBack(d), rs, rest);
  }

  lemma {:induction false} BlockTrip<W>(d: Cmd<W>, inside: seq<Tok<W>>, rs: seq<Redirect<W>>, rest: seq<Tok<W>>)
    requires Fits(d) && Stops(rest) && !d.Exec? && !d.Redir? && inside == ShowLine(d)
    ensures PExec(([Open] + inside + [Close]) + ShowRedirs(rs) + rest) == Ok(Wrap(d, rs), rest)
    decreases d, if d.Pipe? then 3 else if d.Back? then 2 else 1
  {
    LineTrip(d, [Close] + ShowRedirs(rs) + rest);
    ExecTripBlock(d, inside, rs, rest);
  }

  lemma {:induction false} PipeTrip<W>(c: Cmd<W>, rest: seq<Tok<W>>)
    requires Fits(c) && EndsPipe(rest)
    ensures PPipe(ShowPipe(c) + rest) == Ok(c, rest)
    decreases c, if c.Pipe? then 0 else if c.Back? then 4 else if c.List? then 3 else 1
  {
    if c.Pipe? {
      var after := [Bar] + (ShowPipe(c.right) + rest);
      assert ShowPipe(c) + rest == ShowExec(c.left) + after;
      ExecTrip(c.left, after);
      assert after[1..] == ShowPipe(c.right) + rest;
      PipeTrip(c.right, rest);
    } else {
      ExecTrip(c, rest);
    }
  }

  /** Printing up to the '&'s and parsing them one by one. */
  ghost function PBack<W>(ts: seq<Tok<W>>): (r: Parse<W>) {
    match PPipe(ts)
    case Err(e) => Err(e)
    case Ok(c, rest) => Backs(c, rest)
  }

  lemma {:induction false} BackTrip<W>(c: Cmd<W>, rest: seq<Tok<W>>)
    requires Fits(c) && EndsPipe(rest)
    ensures PBack(ShowBack(c) + rest) == Backs(c, rest)
    decreases c, if c.Back? then 0 else if c.Pipe? then 1 else if c.List? then 4 else 2
  {
    if c.Back? {
      assert ShowBack(c) + rest == ShowBack(c.cmd) + ([Amp] + rest);
      BackTrip(c.cmd, [Amp] + rest);
      assert ([Amp] + rest)[1..] == rest;
    } else {
      PipeTrip(c, rest);
    }
  }

  /** Every command tree with at most nine words to a command is parsed back from what is
      printed for it, whatever follows it that can follow a line. */
  lemma {:induction false} LineTrip<W>(c: Cmd<W>, rest: seq<Tok<W>>)
    requires Fits(c) && EndsLine(rest)
    ensures PLine(ShowLine(c) + rest) == Ok(c, rest)
    decreases c, if c.List? then 0 else if c.Back? then 1 else if c.Pipe? then 2 else 3
  {
    if c.List? {
      var after := [Semi] + (ShowLine(c.right) + rest);
      assert ShowLine(c) + rest == ShowBack(c.left) + after;
      BackTrip(c.left, after);
      assert after[1..] == ShowLine(c.right) + rest;
      LineTrip(c.right, rest);
    } else {
      BackTrip(c, rest);
    }
  }

  /** What the parser accepts as a whole line (parsecmd). */
  function PCmd<W>(ts: seq<Tok<W>>): (r: Parse<W>) {
    var p := PLine(ts);
    if p.Ok? && p.rest != [] then Err(Syntax) else p
  }

  // ----- parsing does not look inside words -----

  function MapTok<V, W>(f: V -> W, t: Tok<V>): (r: Tok<W>) {
    match t
    case Word(w) => Word(f(w))
    case Bar => Bar
    case Open => Open
    case Close => Close
    case Semi => Semi
    case Amp => Amp
    case Arrow(m) => Arrow(m)
  }

  function MapAll<V, W>(f: V -> W, ts: seq<Tok<V>>): (us: seq<Tok<W>>)
    ensures |us| == |ts| && forall i: nat :: i < |ts| ==> us[i] == MapTok(f, ts[i])
  {
    seq(|ts|, i requires 0 <= i < |ts| => MapTok(f, ts[i]))
  }

  function MapArgs<V, W>(f: V -> W, ws: seq<V>): (us: seq<W>)
    ensures |us| == |ws| && forall i: nat :: i < |ws| ==> us[i] == f(ws[i])
  {
    seq(|ws|, i requires 0 <= i < |ws| => f(ws[i]))
  }

  function MapRs<V, W>(f: V -> W, rs: seq<Redirect<V>>): (us: seq<Redirect<W>>)
    ensures |us| == |rs| && forall i: nat :: i < |rs| ==> us[i] == Redirect(rs[i].mode, f(rs[i].file))
  {
    seq(|rs|, i requires 0 <= i < |rs| => Redirect(rs[i].mode, f(rs[i].file)))
  }

  function MapCmd<V, W>(f: V -> W, c: Cmd<V>): (r: Cmd<W>) {
    match c
    case Exec(args) => Exec(MapArgs(f, args))
    case Redir(d, to) => Redir(MapCmd(f, d), Redirect(to.mode, f(to.file)))
    case Pipe(l, r) => Pipe(MapCmd(f, l), MapCmd(f, r))
    case List(l, r) => List(MapCmd(f, l), MapCmd(f, r))
    case Back(d) => Back(MapCmd(f, d))
  }

  function MapParse<V, W>(f: V -> W, p: Parse<V>): (r: Parse<W>) {
    match p
    case Err(e) => Err(e)
    case Ok(c, rest) => Ok(MapCmd(f, c), MapAll(f, rest))
  }

  function MapRedirs<V, W>(f: V -> W, p: Redirs<V>): (r: Redirs<W>) {
    match p
    case NoFile => NoFile
    case Found(rs, rest) => Found(MapRs(f, rs), MapAll(f, rest))
  }

  lemma MapDrop<V, W>(f: V -> W, ts: seq<Tok<V>>, n: nat)
    requires n <= |ts|
    ensures MapAll(f, ts)[n..] == MapAll(f, ts[n..])
  {}

  lemma {:induction false} WrapMap<V, W>(f: V -> W, c: Cmd<V>, rs: seq<Redirect<V>>)
    ensures Wrap(MapCmd(f, c), MapRs(f, rs)) == MapCmd(f, Wrap(c, rs))
    decreases |rs|
  {
    if rs != [] {
      WrapMap(f, Redir(c, rs[0]), rs[1..]);
      assert MapRs(f, rs)[1..] == MapRs(f, rs[1..]);
    }
  }

  lemma {:induction false} PRedirsMap<V, W>(f: V -> W, ts: seq<Tok<V>>)
    ensures PRedirs(MapAll(f, ts)) == MapRedirs(f, PRedirs(ts))
  {
    if |ts| >= 2 && ts[0].Arrow? && ts[1].Word? {
      MapDrop(f, ts, 2);
      PRedirsMap(f, ts[2..]);
      var p := PRedirs(ts[2..]);
      if p.Found? {
        var r := Redirect(ts[0].mode, ts[1].w);
        assert MapRs(f, [r] + p.rs) == [Redirect(r.mode, f(r.file))] + MapRs(f, p.rs);
      }
    }
  }

  lemma {:induction false} PArgsMap<V, W>(f: V -> W, ts: seq<Tok<V>>, args: seq<V>, rs: seq<Redirect<V>>)
    ensures PArgs(MapAll(f, ts), MapArgs(f, args), MapRs(f, rs)) == MapParse(f, PArgs(ts, args, rs))
    decreases |ts|
  {
    assert Stops(MapAll(f, ts)) == Stops(ts);
    if Stops(ts) {
      WrapMap(f, Exec(args), rs);
    } else if ts[0].Word? && |args| + 1 < MAXARGS {
      MapDrop(f, ts, 1);
      PRedirsMap(f, ts[1..]);
      var p := PRedirs(ts[1..]);
      if p.Found? {
        PArgsMap(f, p.rest, args + [ts[0].w], rs + p.rs);
        assert MapArgs(f, args + [ts[0].w]) == MapArgs(f, args) + [f(ts[0].w)];
        assert MapRs(f, rs + p.rs) == MapRs(f, rs) + MapRs(f, p.rs);
      }
    }
  }

  lemma {:induction false} PExecMap<V, W>(f: V -> W, ts: seq<Tok<V>>)
    ensures PExec(MapAll(f, ts)) == MapParse(f, PExec(ts))
    decreases |ts|, 0
  {
    if ts != [] && ts[0].Open? {
      MapDrop(f, ts, 1);
      PLineMap(f, ts[1..]);
      var p := PLine(ts[1..]);
      if p.Ok? && p.rest != [] && p.rest[0].Close? {
        MapDrop(f, p.rest, 1);
        PRedirsMap(f, p.rest[1..]);
        var r := PRedirs(p.rest[1..]);
        if r.Found? { WrapMap(f, p.cmd, r.rs); }
      }
    } else {
      PRedirsMap(f, ts);
      var r := PRedirs(ts);
      if r.Found? {
        PArgsMap(f, r.rest, [], r.rs);
        var none: seq<W> := [];
        assert MapArgs(f, []) == none;
      }
    }
  }

  lemma {:induction false} PPipeMap<V, W>(f: V -> W, ts: seq<Tok<V>>)
    ensures PPipe(MapAll(f, ts)) == MapParse(f, PPipe(ts))
    decreases |ts|, 1
  {
    PExecMap(f, ts);
    var p := PExec(ts);
    if p.Ok? && p.rest != [] && p.rest[0].Bar? {
      MapDrop(f, p.rest, 1);
      PPipeMap(f, p.rest[1..]);
    }
  }

  lemma {:induction false} BacksMap<V, W>(f: V -> W, c: Cmd<V>, ts: seq<Tok<V>>)
    ensures Backs(MapCmd(f, c), MapAll(f, ts)) == MapParse(f, Backs(c, ts))
    decreases |ts|
  {
    if ts != [] && ts[0].Amp? {
      MapDrop(f, ts, 1);
      BacksMap(f, Back(c), ts[1..]);
    }
  }

  /** A line, once its first part has been parsed. */
  lemma LineIs<W>(ts: seq<Tok<W>>, b: Parse<W>)
    requires PPipe(ts).Ok? && Backs(PPipe(ts).cmd, PPipe(ts).rest) == b
    ensures b.rest == [] || !b.rest[0].Semi? ==> PLine(ts) == b
    ensures b.rest != [] && b.rest[0].Semi? ==> PLine(ts) == Listed(b.cmd, PLine(b.rest[1..]))
  {}

  function Listed<W>(c: Cmd<W>, p: Parse<W>): (r: Parse<W>) {
    if p.Err? then p else Ok(List(c, p.cmd), p.rest)
  }

  lemma ListedMap<V, W>(f: V -> W, b: Parse<V>)
    requires b.Ok? && b.rest != [] && PLine(MapAll(f, b.rest[1..])) == MapParse(f, PLine(b.rest[1..]))
    ensures MapAll(f, b.rest)[1..] == MapAll(f, b.rest[1..])
    ensures Listed(MapCmd(f, b.cmd), PLine(MapAll(f, b.rest[1..]))) == MapParse(f, Listed(b.cmd, PLine(b.rest[1..])))
  {
    MapDrop(f, b.rest, 1);
  }

  lemma {:induction false} PLineMap<V, W>(f: V -> W, ts: seq<Tok<V>>)
    ensures PLine(MapAll(f, ts)) == MapParse(f, PLine(ts))
    decreases |ts|, 2
  {
    PPipeMap(f, ts);
    var p := PPipe(ts);
    if p.Ok? {
      BacksMap(f, p.cmd, p.rest);
      var b := Backs(p.cmd, p.rest);
      LineIs(ts, b);
      LineIs(MapAll(f, ts), MapParse(f, b));
      if b.rest != [] && b.rest[0].Semi? {
        PLineMap(f, b.rest[1..]);
        ListedMap(f, b);
      }
    }
  }
}
