/** What the shell's parser promises. */
module ShTheorems {
  import opened Common
  import opened ShGrammar
  import opened ShWords
  import opened ShTokens
  import opened ShSpacing
  import opened ShTerminate
  import opened ShParser

  /** The command with the texts of its words. */
  function CmdText(line: string, c: Cmd<Span>): (r: Cmd<string>) { MapCmd(Reader(line), c) }

  lemma {:induction false} NoNul(ts: seq<Tok<string>>, gaps: seq<string>)
    requires AllToks(GoodWord, ts) && Separates(ts, gaps)
    ensures forall k: nat :: k < |Spaced(ts, gaps)| ==> Spaced(ts, gaps)[k] != NUL
  {
    assert Blank(gaps[0]);
    if ts != [] {
      assert TokHas(GoodWord, ts[0]);
      DropToks(GoodWord, ts, 1);
      SeparatesRest(ts, gaps);
      NoNul(ts[1..], gaps[1..]);
    }
  }

  /** Every command tree whose words are words, at most nine to a command, is what the
      parser makes of the line printed for it, with any white space between the tokens. */
  lemma RoundTrip(c: Cmd<string>, gaps: seq<string>)
    requires AllWords(GoodWord, c) && Fits(c) && Separates(ShowLine(c), gaps)
    ensures var line := Spaced(ShowLine(c), gaps);
      PCmd(Lex(line, 0)).Ok? && CmdText(line, PCmd(Lex(line, 0)).cmd) == c
  {
    var ts := ShowLine(c);
    var line := Spaced(ts, gaps);
    ShowSound(GoodWord, c);
    AnySpacing(ts, gaps);
    Accepted(c, ts);
    PLineMap(Reader(line), Lex(line, 0));
  }

  /** The text a C program reads for a word. */
  function CReader(b: seq<char>): (f: Span -> string) { (w: Span) => CString(b, w.q) }

  lemma {:induction false} SameText(line: string, b: seq<char>, c: Cmd<Span>)
    requires AllWords(Reads(line, b), c)
    ensures MapCmd(CReader(b), c) == CmdText(line, c)
  {
    match c
    case Exec(args) =>
      forall i: nat | i < |args|
        ensures CReader(b)(args[i]) == Reader(line)(args[i])
      {
        assert Reads(line, b)(args[i]);
      }
      assert MapArgs(CReader(b), args) == MapArgs(Reader(line), args);
    case Redir(d, to) =>
      SameText(line, b, d);
      assert Reads(line, b)(to.file);
    case Pipe(l, r) =>
      SameText(line, b, l);
      SameText(line, b, r);
    case List(l, r) =>
      SameText(line, b, l);
      SameText(line, b, r);
    case Back(d) =>
      SameText(line, b, d);
  }

  /** The line printed for c, with the NUL after it, in a buffer. */
  method PrintLine(c: Cmd<string>, gaps: seq<string>) returns (b: array<char>)
    requires AllWords(GoodWord, c) && |gaps| == |ShowLine(c)| + 1
    ensures fresh(b) && b.Length == |Spaced(ShowLine(c), gaps)| + 1
    ensures b[..b.Length - 1] == Spaced(ShowLine(c), gaps) && b[b.Length - 1] == NUL
  {
    var line := Spaced(ShowLine(c), gaps);
    b := new char[|line| + 1];
    var i := 0;
    while i < |line|
      invariant i <= |line| && b[..i] == line[..i]
    {
      b[i] := line[i];
      i := i + 1;
    }
    b[|line|] := NUL;
    assert b[..|line|] == line[..|line|] == line;
  }

  /** What the parser makes of a printed line is the command, read word by word from the
      buffer it has cut up. */
  method ParsePrinted(c: Cmd<string>, gaps: seq<string>) returns (p: Parser, r: Result)
    requires AllWords(GoodWord, c) && Fits(c) && Separates(ShowLine(c), gaps)
    ensures fresh(p) && r.Fine? && MapCmd(CReader(p.buf[..]), r.cmd) == c
  {
    var b := PrintLine(c, gaps);
    ghost var line := Spaced(ShowLine(c), gaps);
    ShowSound(GoodWord, c);
    NoNul(ShowLine(c), gaps);
    p := new Parser(b);
    assert p.Line() == line by { SameEnd(p.buf[..], line, p.es); }
    RoundTrip(c, gaps);
    r := p.ParseCmd();
    SameText(line, p.buf[..], r.cmd);
  }

  /** A buffer that holds a line without NULs, and then a NUL, ends where the line does. */
  lemma SameEnd(b: seq<char>, line: string, es: nat)
    requires |b| == |line| + 1 && b[..|line|] == line && b[|line|] == NUL && forall k: nat :: k < |line| ==>
        line[k] != NUL
    requires es < |b| && b[es] == NUL && forall k: nat :: k < es ==> b[k] != NUL
    ensures b[..es] == line
  {
    assert forall k: nat :: k < |line| ==> b[k] == line[k];
  }

  /** Whatever line the parser accepts, printing the tree and parsing it again gives the
      same tree. */
  lemma AcceptedPrintsBack(line: string, gaps: seq<string>)
    requires (forall k: nat :: k < |line| ==> line[k] != NUL) && PCmd(Lex(line, 0)).Ok?
    requires Separates(ShowLine(CmdText(line, PCmd(Lex(line, 0)).cmd)), gaps)
    ensures var c := CmdText(line, PCmd(Lex(line, 0)).cmd); var again := Spaced(ShowLine(c), gaps);
      PCmd(Lex(again, 0)).Ok? && CmdText(again, PCmd(Lex(again, 0)).cmd) == c
  {
    LexWords(line, 0);
    LineSound(Whole(line), Lex(line, 0));
    var d := PCmd(Lex(line, 0)).cmd;
    TextSound(line, d);
    RoundTrip(CmdText(line, d), gaps);
  }

  lemma {:induction false} TextSound(line: string, d: Cmd<Span>)
    requires (forall k: nat :: k < |line| ==> line[k] != NUL) && AllWords(Whole(line), d) && Fits(d)
    ensures AllWords(GoodWord, CmdText(line, d)) && Fits(CmdText(line, d))
  {
    match d
    case Exec(args) =>
      forall i: nat | i < |args|
        ensures GoodWord(Reader(line)(args[i]))
      {
        assert Whole(line)(args[i]);
      }
    case Redir(e, to) =>
      TextSound(line, e);
      assert Whole(line)(to.file);
    case Pipe(l, r) =>
      TextSound(line, l);
      TextSound(line, r);
    case List(l, r) =>
      TextSound(line, l);
      TextSound(line, r);
    case Back(e) =>
      TextSound(line, e);
  }

  /** After the last '&' of a command a line is accepted exactly if it ends there, or if ';' and a
      line that is accepted follow. */
  lemma AmpEndsCommand(c: Cmd<string>, rest: seq<Tok<string>>)
    requires Fits(c) && (rest == [] || !rest[0].Amp?)
    ensures PCmd(ShowBack(c) + [Amp] + rest).Ok? <==> rest == [] || (rest[0].Semi? && PCmd(rest[1..]).Ok?)
    ensures rest != [] && !rest[0].Semi? ==> PCmd(ShowBack(c) + [Amp] + rest) == Err(Syntax)
  {
    var ts := ShowBack(c) + [Amp] + rest;
    assert ts == ShowBack(c) + ([Amp] + rest);
    BackTrip(c, [Amp] + rest);
    assert ([Amp] + rest)[1..] == rest;
    assert Backs(c, [Amp] + rest) == Ok(Back(c), rest);
    LineIs(ts, PBack(ts));
  }

  lemma {:induction false} ManyArgs(done: seq<string>, left: seq<string>)
    requires |done| < MAXARGS <= |done| + |left|
    ensures PArgs(Words(left), done, []) == Err(TooManyArgs)
    decreases |left|
  {
    if |done| + 1 < MAXARGS {
      assert Words(left)[1..] == Words(left[1..]);
      assert Words(left[1..])[0] == Word(left[1]);
      OneWord(Words(left), done, left[0], [], Words(left[1..]));
      ManyArgs(done + [left[0]], left[1..]);
    }
  }

  lemma TooMany(ts: seq<Tok<string>>)
    requires ts != [] && ts[0].Word? && PArgs(ts, [], []) == Err(TooManyArgs)
    ensures PCmd(ts) == Err(TooManyArgs)
  {
    assert PRedirs(ts) == Found([], ts);
    assert PExec(ts) == Err(TooManyArgs);
    assert PPipe(ts) == Err(TooManyArgs);
    assert PLine(ts) == Err(TooManyArgs);
  }

  lemma Accepted(c: Cmd<string>, ts: seq<Tok<string>>)
    requires Fits(c) && ts == ShowLine(c)
    ensures PCmd(ts) == Ok(c, [])
  {
    var none: seq<Tok<string>> := [];
    LineTrip(c, none);
    assert ts + none == ts;
  }

  lemma FewWords(c: Cmd<string>)
    requires c.Exec? && |c.args| < MAXARGS
    ensures PCmd(Words(c.args)) == Ok(c, [])
  {
    var ts := Words(c.args);
    assert ShowExec(c) == ts;
    assert ShowPipe(c) == ts;
    assert ShowBack(c) == ts;
    Accepted(c, ts);
  }

  /** A command of plain words is accepted exactly when it has at most nine of them. */
  lemma WordLimit(args: seq<string>)
    ensures PCmd(Words(args)) == if |args| < MAXARGS then Ok(Exec(args), []) else Err(TooManyArgs)
  {
    if |args| < MAXARGS {
      FewWords(Exec(args));
    } else {
      ManyArgs([], args);
      TooMany(Words(args));
    }
  }
}
