/** The words of a command are those of the tokens it was parsed from. */
module ShWords {
  import opened ShGrammar

  ghost predicate AllToks<W(!new)>(p: W -> bool, ts: seq<Tok<W>>) {
    forall i: nat :: i < |ts| ==> TokHas(p, ts[i])
  }

  ghost predicate TokHas<W>(p: W -> bool, t: Tok<W>) { t.Word? ==> p(t.w) }

  ghost predicate AllArgs<W>(p: W -> bool, ws: seq<W>) { forall i: nat :: i < |ws| ==> p(ws[i]) }

  ghost predicate AllFiles<W>(p: W -> bool, rs: seq<Redirect<W>>) { forall i: nat :: i < |rs| ==> p(rs[i].file) }

  ghost predicate AllWords<W>(p: W -> bool, c: Cmd<W>) {
    match c
    case Exec(args) => AllArgs(p, args)
    case Redir(d, to) => AllWords(p, d) && p(to.file)
    case Pipe(l, r) => AllWords(p, l) && AllWords(p, r)
    case List(l, r) => AllWords(p, l) && AllWords(p, r)
    case Back(d) => AllWords(p, d)
  }

  /** A command whose words all satisfy p and that prints within the limit on words. */
  ghost predicate Sound<W>(p: W -> bool, c: Cmd<W>) { AllWords(p, c) && Fits(c) }

  ghost predicate SoundParse<W(!new)>(p: W -> bool, r: Parse<W>) { r.Ok? ==> Sound(p, r.cmd) && AllToks(p, r.rest) }

  lemma DropToks<W(!new)>(p: W -> bool, ts: seq<Tok<W>>, n: nat)
    requires AllToks(p, ts) && n <= |ts|
    ensures AllToks(p, ts[n..])
  {
    assert forall i: nat :: i < |ts[n..]| ==> ts[n..][i] == ts[n + i];
  }

  lemma {:induction false} WrapSound<W>(p: W -> bool, c: Cmd<W>, rs: seq<Redirect<W>>)
    requires Sound(p, c) && AllFiles(p, rs)
    ensures Sound(p, Wrap(c, rs))
    decreases |rs|
  {
    if rs != [] {
      WrapSound(p, Redir(c, rs[0]), rs[1..]);
    }
  }

  lemma {:induction false} RedirsSound<W(!new)>(p: W -> bool, ts: seq<Tok<W>>)
    requires AllToks(p, ts)
    ensures PRedirs(ts).Found? ==> AllFiles(p, PRedirs(ts).rs) && AllToks(p, PRedirs(ts).rest)
  {
    if |ts| >= 2 && ts[0].Arrow? && ts[1].Word? {
      DropToks(p, ts, 2);
      assert TokHas(p, ts[1]);
      RedirsSound(p, ts[2..]);
    }
  }

  lemma {:induction false} ArgsSound<W(!new)>(p: W -> bool, ts: seq<Tok<W>>, args: seq<W>, rs: seq<Redirect<W>>)
    requires AllToks(p, ts) && AllArgs(p, args) && AllFiles(p, rs) && |args| < MAXARGS
    ensures SoundParse(p, PArgs(ts, args, rs))
    decreases |ts|
  {
    if Stops(ts) {
      WrapSound(p, Exec(args), rs);
    } else if ts[0].Word? && |args| + 1 < MAXARGS {
      assert TokHas(p, ts[0]);
      DropToks(p, ts, 1);
      RedirsSound(p, ts[1..]);
      var r := PRedirs(ts[1..]);
      if r.Found? { ArgsSound(p, r.rest, args + [ts[0].w], rs + r.rs); }
    }
  }

  lemma {:induction false} ExecSound<W(!new)>(p: W -> bool, ts: seq<Tok<W>>)
    requires AllToks(p, ts)
    ensures SoundParse(p, PExec(ts))
    decreases |ts|, 0
  {
    if ts != [] && ts[0].Open? {
      DropToks(p, ts, 1);
      LineSound(p, ts[1..]);
      var q := PLine(ts[1..]);
      if q.Ok? && q.rest != [] && q.rest[0].Close? {
        DropToks(p, q.rest, 1);
        RedirsSound(p, q.rest[1..]);
        var r := PRedirs(q.rest[1..]);
        if r.Found? { WrapSound(p, q.cmd, r.rs); }
      }
    } else {
      RedirsSound(p, ts);
      if PRedirs(ts).Found? { ArgsSound(p, PRedirs(ts).rest, [], PRedirs(ts).rs); }
    }
  }

  lemma {:induction false} PipeSound<W(!new)>(p: W -> bool, ts: seq<Tok<W>>)
    requires AllToks(p, ts)
    ensures SoundParse(p, PPipe(ts))
    decreases |ts|, 1
  {
    ExecSound(p, ts);
    var q := PExec(ts);
    if q.Ok? && q.rest != [] && q.rest[0].Bar? {
      DropToks(p, q.rest, 1);
      PipeSound(p, q.rest[1..]);
    }
  }

  lemma {:induction false} BacksSound<W(!new)>(p: W -> bool, c: Cmd<W>, ts: seq<Tok<W>>)
    requires AllToks(p, ts) && Sound(p, c)
    ensures SoundParse(p, Backs(c, ts))
    decreases |ts|
  {
    if ts != [] && ts[0].Amp? {
      DropToks(p, ts, 1);
      BacksSound(p, Back(c), ts[1..]);
    }
  }

  /** Whatever the parser accepts has words from its input only, at most nine to a command. */
  lemma {:induction false} LineSound<W(!new)>(p: W -> bool, ts: seq<Tok<W>>)
    requires AllToks(p, ts)
    ensures SoundParse(p, PLine(ts))
    decreases |ts|, 2
  {
    PipeSound(p, ts);
    var q := PPipe(ts);
    if q.Ok? {
      BacksSound(p, q.cmd, q.rest);
      var b := Backs(q.cmd, q.rest);
      if b.rest != [] && b.rest[0].Semi? {
        DropToks(p, b.rest, 1);
        LineSound(p, b.rest[1..]);
      }
    }
  }

  // ----- and those of what is printed -----

  lemma AppendToks<W(!new)>(p: W -> bool, a: seq<Tok<W>>, b: seq<Tok<W>>)
    requires AllToks(p, a) && AllToks(p, b)
    ensures AllToks(p, a + b)
  {}

  lemma {:induction false} ShowWords<W(!new)>(p: W -> bool, args: seq<W>)
    requires AllArgs(p, args)
    ensures AllToks(p, Words(args))
  {
    if args != [] {
      ShowWords(p, args[1..]);
      AppendToks(p, [Word(args[0])], Words(args[1..]));
    }
  }

  lemma {:induction false} ShowSound<W(!new)>(p: W -> bool, c: Cmd<W>)
    requires AllWords(p, c)
    ensures AllToks(p, ShowExec(c)) && AllToks(p, ShowPipe(c)) && AllToks(p, ShowBack(c)) && AllToks(p, ShowLine(c))
  {
    match c
    case Exec(args) =>
      ShowWords(p, args);
    case Redir(d, to) =>
      ShowSound(p, d);
      AppendToks(p, ShowExec(d), [Arrow(to.mode), Word(to.file)]);
    case Pipe(l, r) =>
      ShowSound(p, l);
      ShowSound(p, r);
      Joined(p, ShowExec(l), Bar, ShowPipe(r));
      Enclosed(p, ShowPipe(c));
    case List(l, r) =>
      ShowSound(p, l);
      ShowSound(p, r);
      Joined(p, ShowBack(l), Semi, ShowLine(r));
      Enclosed(p, ShowLine(c));
    case Back(d) =>
      ShowSound(p, d);
      AppendToks(p, ShowBack(d), [Amp]);
      Enclosed(p, ShowBack(c));
  }

  lemma Joined<W(!new)>(p: W -> bool, a: seq<Tok<W>>, t: Tok<W>, b: seq<Tok<W>>)
    requires AllToks(p, a) && AllToks(p, b) && !t.Word?
    ensures AllToks(p, a + [t] + b)
  {
    AppendToks(p, a, [t]);
    AppendToks(p, a + [t], b);
  }

  lemma Enclosed<W(!new)>(p: W -> bool, a: seq<Tok<W>>)
    requires AllToks(p, a)
    ensures AllToks(p, [Open] + a + [Close])
  {
    AppendToks(p, [Open], a);
    AppendToks(p, [Open] + a, [Close]);
  }
}
