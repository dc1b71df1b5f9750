/** The command language as a language: which token sequences spell which command, without
    reference to how they are parsed (user/sh.c). */
module ShLanguage {
  import opened Common
  import opened ShGrammar

  // ----- simple commands -----

  /** Words and redirections in any order. */
  predicate IsSimple<W>(ts: seq<Tok<W>>) {
    ts == [] || (ts[0].Word? && IsSimple(ts[1..])) || (ts[0].Arrow? && |ts| > 1 && ts[1].Word? && IsSimple(ts[2..]))
  }

  /** Its words. */
  function ArgsOf<W>(ts: seq<Tok<W>>): (args: seq<W>)
    requires IsSimple(ts)
  {
    if ts == [] then [] else if ts[0].Word? then [ts[0].w] + ArgsOf(ts[1..]) else ArgsOf(ts[2..])
  }

  /** Its redirections. */
  function RedirsOf<W>(ts: seq<Tok<W>>): (rs: seq<Redirect<W>>)
    requires IsSimple(ts)
  {
    if ts == [] then []
    else if ts[0].Word? then RedirsOf(ts[1..])
    else [Redirect(ts[0].mode, ts[1].w)] + RedirsOf(ts[2..])
  }

  predicate OnlyRedirs<W>(ts: seq<Tok<W>>) { IsSimple(ts) && ArgsOf(ts) == [] }

  // ----- the language -----

  /** A simple command with at most nine words, or a line in parentheses with redirections. */
  ghost predicate LExec<W(!new)>(c: Cmd<W>, ts: seq<Tok<W>>)
    decreases |ts|, 1
  {
    || (IsSimple(ts) && |ArgsOf(ts)| < MAXARGS && c == Wrap(Exec(ArgsOf(ts)), RedirsOf(ts)))
    || exists n: nat, d: Cmd<W> :: LBlock(c, ts, n, d)
  }

  ghost predicate LBlock<W(!new)>(c: Cmd<W>, ts: seq<Tok<W>>, n: nat, d: Cmd<W>)
    decreases |ts|, 0
  {
    && 0 < n < |ts| && ts[0].Open? && ts[n].Close? && LLine(d, ts[1..n])
    && OnlyRedirs(ts[n + 1..]) && c == Wrap(d, RedirsOf(ts[n + 1..]))
  }

  /** One command, or one and a pipeline with a bar between them. */
  ghost predicate LPipe<W(!new)>(c: Cmd<W>, ts: seq<Tok<W>>)
    decreases |ts|, 2
  {
    || LExec(c, ts)
    || (c.Pipe? && exists n: nat :: n < |ts| && ts[n].Bar? && LExec(c.left, ts[..n]) && LPipe(c.right, ts[n + 1..]))
  }

  /** A pipeline with any number of '&' after it. */
  ghost predicate LBack<W(!new)>(c: Cmd<W>, ts: seq<Tok<W>>)
    decreases |ts|, 3
  {
    || LPipe(c, ts)
    || (c.Back? && ts != [] && ts[|ts| - 1].Amp? && LBack(c.cmd, ts[..|ts| - 1]))
  }

  /** Such pipelines with semicolons between them. */
  ghost predicate LLine<W(!new)>(c: Cmd<W>, ts: seq<Tok<W>>)
    decreases |ts|, 4
  {
    || LBack(c, ts)
    || (c.List? && exists n: nat :: n < |ts| && ts[n].Semi? && LBack(c.left, ts[..n]) && LLine(c.right, ts[n + 1..]))
  }

  // ----- everything in the language is parsed -----

  /** The leading redirections of a simple command. */
  lemma {:induction false} LeadRedirs<W>(ts: seq<Tok<W>>, rest: seq<Tok<W>>)
    requires IsSimple(ts) && (rest == [] || !rest[0].Arrow?)
    ensures PRedirs(ts).Found? && IsSimple(PRedirs(ts).rest)
    ensures PRedirs(ts + rest) == Found(PRedirs(ts).rs, PRedirs(ts).rest + rest)
    ensures ArgsOf(PRedirs(ts).rest) == ArgsOf(ts) && RedirsOf(ts) == PRedirs(ts).rs + RedirsOf(PRedirs(ts).rest)
    ensures PRedirs(ts).rest == [] || PRedirs(ts).rest[0].Word?
    decreases |ts|
  {
    if ts == [] {
      assert ts + rest == rest;
    } else if ts[0].Arrow? {
      assert (ts + rest)[2..] == ts[2..] + rest;
      LeadRedirs(ts[2..], rest);
      Regroup([Redirect(ts[0].mode, ts[1].w)], PRedirs(ts[2..]).rs, RedirsOf(PRedirs(ts).rest));
    }
  }

  lemma {:induction false} ArgsComplete<W>(ts: seq<Tok<W>>, done: seq<W>, rs: seq<Redirect<W>>, rest: seq<Tok<W>>)
    requires IsSimple(ts) && (ts == [] || ts[0].Word?) && Stops(rest) && |done| + |ArgsOf(ts)| < MAXARGS
    ensures PArgs(ts + rest, done, rs) == Ok(Wrap(Exec(done + ArgsOf(ts)), rs + RedirsOf(ts)), rest)
    decreases |ts|
  {
    if ts == [] {
      assert ts + rest == rest && done + ArgsOf(ts) == done && rs + RedirsOf(ts) == rs;
    } else {
      var next := ts[1..];
      assert (ts + rest)[1..] == next + rest;
      LeadRedirs(next, rest);
      var lead, tail := PRedirs(next).rs, PRedirs(next).rest;
      ArgsComplete(tail, done + [ts[0].w], rs + lead, rest);
      Regroup(done, [ts[0].w], ArgsOf(tail));
      Regroup(rs, lead, RedirsOf(tail));
    }
  }

  lemma SimpleComplete<W>(ts: seq<Tok<W>>, rest: seq<Tok<W>>)
    requires IsSimple(ts) && Stops(rest) && |ArgsOf(ts)| < MAXARGS
    ensures PExec(ts + rest) == Ok(Wrap(Exec(ArgsOf(ts)), RedirsOf(ts)), rest)
  {
    LeadRedirs(ts, rest);
    var lead, tail := PRedirs(ts).rs, PRedirs(ts).rest;
    ArgsComplete(tail, [], lead, rest);
    assert [] + ArgsOf(tail) == ArgsOf(tail);
    assert ts + rest != [] ==> !(ts + rest)[0].Open?;
  }

  lemma OnlyRedirsComplete<W>(ts: seq<Tok<W>>, rest: seq<Tok<W>>)
    requires OnlyRedirs(ts) && (rest == [] || !rest[0].Arrow?)
    ensures PRedirs(ts + rest) == Found(RedirsOf(ts), rest)
  {
    LeadRedirs(ts, rest);
    var tail := PRedirs(ts).rest;
    assert tail == [];
    assert tail + rest == rest && PRedirs(ts).rs + RedirsOf(tail) == PRedirs(ts).rs;
  }
}

/** The parser accepts exactly the language. */
module ShAccepts {
  import opened Common
  import opened ShGrammar
  import opened ShLanguage

  // ----- everything in the language is parsed -----

  /** Where a token of ts is, the tokens before and after it. */
  lemma SplitAt<W>(ts: seq<Tok<W>>, rest: seq<Tok<W>>, n: nat)
    requires n < |ts|
    ensures ts + rest == ts[..n] + ([ts[n]] + (ts[n + 1..] + rest))
    ensures ([ts[n]] + (ts[n + 1..] + rest))[1..] == ts[n + 1..] + rest
  {}

  lemma {:induction false} BlockComplete<W(!new)>(c: Cmd<W>, ts: seq<Tok<W>>, n: nat, d: Cmd<W>, rest: seq<Tok<W>>)
    requires LBlock(c, ts, n, d) && Stops(rest)
    ensures PExec(ts + rest) == Ok(c, rest)
    decreases |ts|, 0
  {
    var tail := ts[n..] + rest;
    LineComplete(d, ts[1..n], tail);
    assert (ts + rest)[1..] == ts[1..n] + tail;
    assert tail[1..] == ts[n + 1..] + rest;
    OnlyRedirsComplete(ts[n + 1..], rest);
  }

  lemma {:induction false} ExecComplete<W(!new)>(c: Cmd<W>, ts: seq<Tok<W>>, rest: seq<Tok<W>>)
    requires LExec(c, ts) && Stops(rest)
    ensures PExec(ts + rest) == Ok(c, rest)
    decreases |ts|, 1
  {
    if IsSimple(ts) && |ArgsOf(ts)| < MAXARGS && c == Wrap(Exec(ArgsOf(ts)), RedirsOf(ts)) {
      SimpleComplete(ts, rest);
    } else {
      var n: nat, d: Cmd<W> :| LBlock(c, ts, n, d);
      BlockComplete(c, ts, n, d, rest);
    }
  }

  lemma {:induction false} PipeComplete<W(!new)>(c: Cmd<W>, ts: seq<Tok<W>>, rest: seq<Tok<W>>)
    requires LPipe(c, ts) && EndsPipe(rest)
    ensures PPipe(ts + rest) == Ok(c, rest)
    decreases |ts|, 2
  {
    if LExec(c, ts) {
      ExecComplete(c, ts, rest);
    } else {
      var n: nat :| n < |ts| && ts[n].Bar? && LExec(c.left, ts[..n]) && LPipe(c.right, ts[n + 1..]);
      SplitAt(ts, rest, n);
      ExecComplete(c.left, ts[..n], [ts[n]] + (ts[n + 1..] + rest));
      PipeComplete(c.right, ts[n + 1..], rest);
    }
  }

  lemma {:induction false} BackComplete<W(!new)>(c: Cmd<W>, ts: seq<Tok<W>>, rest: seq<Tok<W>>)
    requires LBack(c, ts) && EndsPipe(rest)
    ensures PBack(ts + rest) == Backs(c, rest)
    decreases |ts|, 3
  {
    if LPipe(c, ts) {
      PipeComplete(c, ts, rest);
    } else {
      var n := |ts| - 1;
      BackComplete(c.cmd, ts[..n], [Amp] + rest);
      assert ts + rest == ts[..n] + ([Amp] + rest);
      assert ([Amp] + rest)[1..] == rest;
    }
  }

  lemma {:induction false} LineComplete<W(!new)>(c: Cmd<W>, ts: seq<Tok<W>>, rest: seq<Tok<W>>)
    requires LLine(c, ts) && EndsLine(rest)
    ensures PLine(ts + rest) == Ok(c, rest)
    decreases |ts|, 4
  {
    if LBack(c, ts) {
      BackComplete(c, ts, rest);
      LineIs(ts + rest, PBack(ts + rest));
    } else {
      var n: nat :| n < |ts| && ts[n].Semi? && LBack(c.left, ts[..n]) && LLine(c.right, ts[n + 1..]);
      SplitAt(ts, rest, n);
      BackComplete(c.left, ts[..n], [ts[n]] + (ts[n + 1..] + rest));
      LineComplete(c.right, ts[n + 1..], rest);
      LineIs(ts + rest, PBack(ts + rest));
    }
  }

  // ----- everything parsed is in the language -----

  lemma {:induction false} SimpleJoin<W>(a: seq<Tok<W>>, b: seq<Tok<W>>)
    requires IsSimple(a) && IsSimple(b)
    ensures IsSimple(a + b) && ArgsOf(a + b) == ArgsOf(a) + ArgsOf(b) && RedirsOf(a + b) == RedirsOf(a) + RedirsOf(b)
    decreases |a|
  {
    if a == [] {
      assert a + b == b;
    } else if a[0].Word? {
      assert (a + b)[1..] == a[1..] + b;
      SimpleJoin(a[1..], b);
      Regroup([a[0].w], ArgsOf(a[1..]), ArgsOf(b));
    } else {
      assert (a + b)[2..] == a[2..] + b;
      SimpleJoin(a[2..], b);
      Regroup([Redirect(a[0].mode, a[1].w)], RedirsOf(a[2..]), RedirsOf(b));
    }
  }

  /** Three pieces one after the other. */
  lemma Pieces<T>(ts: seq<T>, a: seq<T>, r: seq<T>, b: seq<T>, rest: seq<T>)
    requires ts == a + r && r != [] && r[1..] == b + rest
    ensures ts == a + [r[0]] + b + rest
    ensures (a + [r[0]] + b)[..|a|] == a && (a + [r[0]] + b)[|a|] == r[0] && (a + [r[0]] + b)[|a| + 1..] == b
  {}

  /** The tokens a list of redirections takes. */
  lemma {:induction false} RedirsSound<W>(ts: seq<Tok<W>>) returns (u: seq<Tok<W>>)
    requires PRedirs(ts).Found?
    ensures ts == u + PRedirs(ts).rest && OnlyRedirs(u) && RedirsOf(u) == PRedirs(ts).rs
  {
    if ts == [] || !ts[0].Arrow? {
      u := [];
    } else {
      var v := RedirsSound(ts[2..]);
      u := ts[..2] + v;
      assert u[2..] == v;
    }
  }

  /** The tokens the words of a command take, and the redirections among them. */
  lemma {:induction false} ArgsSound<W>(ts: seq<Tok<W>>, done: seq<W>, rs: seq<Redirect<W>>) returns (u: seq<Tok<W>>)
    requires |done| < MAXARGS && PArgs(ts, done, rs).Ok?
    ensures ts == u + PArgs(ts, done, rs).rest && IsSimple(u) && |done| + |ArgsOf(u)| < MAXARGS
    ensures PArgs(ts, done, rs).cmd == Wrap(Exec(done + ArgsOf(u)), rs + RedirsOf(u))
    decreases |ts|
  {
    if Stops(ts) {
      u := [];
      assert done + ArgsOf(u) == done && rs + RedirsOf(u) == rs;
    } else {
      var a := RedirsSound(ts[1..]);
      var more, next := PRedirs(ts[1..]).rs, PRedirs(ts[1..]).rest;
      var b := ArgsSound(next, done + [ts[0].w], rs + more);
      u := ArgsTokens(ts, a, b, next, PArgs(ts, done, rs).rest);
      Regroup(done, [ts[0].w], ArgsOf(b));
      Regroup(rs, more, RedirsOf(b));
    }
  }

  lemma ArgsTokens<W>(ts: seq<Tok<W>>, a: seq<Tok<W>>, b: seq<Tok<W>>, next: seq<Tok<W>>, rest: seq<Tok<W>>)
    returns (u: seq<Tok<W>>)
    requires ts != [] && ts[0].Word? && OnlyRedirs(a) && IsSimple(b) && ts[1..] == a + next && next == b + rest
    ensures ts == u + rest && IsSimple(u)
    ensures ArgsOf(u) == [ts[0].w] + ArgsOf(b) && RedirsOf(u) == RedirsOf(a) + RedirsOf(b)
  {
    u := [ts[0]] + (a + b);
    assert u[1..] == a + b;
    SimpleJoin(a, b);
    assert [] + ArgsOf(b) == ArgsOf(b);
    assert ts == [ts[0]] + (a + (b + rest)) == u + rest;
  }

  lemma SimpleSound<W(!new)>(ts: seq<Tok<W>>) returns (u: seq<Tok<W>>)
    requires !(ts != [] && ts[0].Open?) && PExec(ts).Ok?
    ensures ts == u + PExec(ts).rest && LExec(PExec(ts).cmd, u)
  {
    var a := RedirsSound(ts);
    var lead, next := PRedirs(ts).rs, PRedirs(ts).rest;
    var b := ArgsSound(next, [], lead);
    u := a + b;
    SimpleJoin(a, b);
    assert [] + ArgsOf(b) == ArgsOf(b);
    assert ts == a + (b + PExec(ts).rest) == u + PExec(ts).rest;
  }

  lemma {:induction false} ExecSound<W(!new)>(ts: seq<Tok<W>>) returns (u: seq<Tok<W>>)
    requires PExec(ts).Ok?
    ensures ts == u + PExec(ts).rest && LExec(PExec(ts).cmd, u)
    decreases |ts|, 0
  {
    if ts != [] && ts[0].Open? {
      var p := PLine(ts[1..]);
      var inside := LineTaken(ts[1..]);
      var redirs := RedirsSound(p.rest[1..]);
      u := BlockTokens(p.cmd, inside, redirs);
      Pieces(ts[1..], inside, p.rest, redirs, PExec(ts).rest);
      assert ts == [Open] + ts[1..];
      Regroup([Open], inside + [Close] + redirs, PExec(ts).rest);
    } else {
      u := SimpleSound(ts);
    }
  }

  lemma BlockTokens<W(!new)>(d: Cmd<W>, inside: seq<Tok<W>>, redirs: seq<Tok<W>>) returns (u: seq<Tok<W>>)
    requires LLine(d, inside) && OnlyRedirs(redirs)
    ensures u == [Open] + (inside + [Close] + redirs) && LExec(Wrap(d, RedirsOf(redirs)), u)
  {
    var n := |inside| + 1;
    u := [Open] + (inside + [Close] + redirs);
    assert u[1..n] == inside && u[n + 1..] == redirs;
    assert LBlock(Wrap(d, RedirsOf(redirs)), u, n, d);
  }

  lemma {:induction false} PipeSound<W(!new)>(ts: seq<Tok<W>>) returns (u: seq<Tok<W>>)
    requires PPipe(ts).Ok?
    ensures ts == u + PPipe(ts).rest && LPipe(PPipe(ts).cmd, u)
    decreases |ts|, 1
  {
    var a := ExecSound(ts);
    var p := PExec(ts);
    if p.rest != [] && p.rest[0].Bar? {
      var b := PipeSound(p.rest[1..]);
      u := a + [p.rest[0]] + b;
      Pieces(ts, a, p.rest, b, PPipe(ts).rest);
    } else {
      u := a;
    }
  }

  lemma {:induction false} BacksSound<W(!new)>(c: Cmd<W>, ts: seq<Tok<W>>, before: seq<Tok<W>>) returns (u: seq<Tok<W>>)
    requires LBack(c, before)
    ensures before + ts == u + Backs(c, ts).rest && LBack(Backs(c, ts).cmd, u)
    decreases |ts|
  {
    if ts != [] && ts[0].Amp? {
      var next := before + [ts[0]];
      assert next[..|next| - 1] == before;
      u := BacksSound(Back(c), ts[1..], next);
      assert before + ts == next + ts[1..];
    } else {
      u := before;
    }
  }

  lemma {:induction false} LineTaken<W(!new)>(ts: seq<Tok<W>>) returns (u: seq<Tok<W>>)
    requires PLine(ts).Ok?
    ensures ts == u + PLine(ts).rest && LLine(PLine(ts).cmd, u)
    decreases |ts|, 2
  {
    var a := PipeSound(ts);
    var p := PPipe(ts);
    var b := BacksSound(p.cmd, p.rest, a);
    var q := Backs(p.cmd, p.rest);
    LineIs(ts, q);
    if q.rest != [] && q.rest[0].Semi? {
      var d := LineTaken(q.rest[1..]);
      u := b + [q.rest[0]] + d;
      Pieces(ts, b, q.rest, d, PLine(q.rest[1..]).rest);
    } else {
      u := b;
    }
  }

  // ----- the theorems -----

  /** The parser accepts a line with a command exactly when the line spells the command. */
  lemma AcceptsLanguage<W(!new)>(ts: seq<Tok<W>>, c: Cmd<W>)
    ensures PCmd(ts) == Ok(c, []) <==> LLine(c, ts)
  {
    if LLine(c, ts) {
      assert ts + [] == ts;
      LineComplete(c, ts, []);
    }
    if PCmd(ts) == Ok(c, []) {
      var u := LineTaken(ts);
      assert u + [] == u;
    }
  }

  /** No line spells two commands. */
  lemma Unambiguous<W(!new)>(ts: seq<Tok<W>>, c: Cmd<W>, d: Cmd<W>)
    requires LLine(c, ts) && LLine(d, ts)
    ensures c == d
  {
    AcceptsLanguage(ts, c);
    AcceptsLanguage(ts, d);
  }

  /** Parsing fails exactly on the lines that spell no command. */
  lemma RejectsTheRest<W(!new)>(ts: seq<Tok<W>>)
    ensures PCmd(ts).Ok? <==> exists c: Cmd<W> :: LLine(c, ts)
  {
    if PCmd(ts).Ok? {
      AcceptsLanguage(ts, PCmd(ts).cmd);
    }
    if c: Cmd<W> :| LLine(c, ts) {
      AcceptsLanguage(ts, c);
    }
  }

  /** What is printed for a command spells it. */
  lemma PrinterSpells<W(!new)>(c: Cmd<W>)
    requires Fits(c)
    ensures LLine(c, ShowLine(c))
  {
    LineTrip(c, []);
    assert ShowLine(c) + [] == ShowLine(c);
    AcceptsLanguage(ShowLine(c), c);
  }
}
