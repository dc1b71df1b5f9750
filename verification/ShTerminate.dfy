/** Ending every word of a command with a NUL leaves each word reading as its token
    (nulterminate in user/sh.c). */
module ShTerminate {
  import opened Common
  import opened ShGrammar
  import opened ShWords
  import opened ShTokens

  /** The string a C program reads from position q. */
  function CString(b: seq<char>, q: nat): (r: string)
    decreases |b| - q
  {
    if q >= |b| || b[q] == NUL then "" else [b[q]] + CString(b, q + 1)
  }

  lemma {:induction false} CStringIs(b: seq<char>, q: nat, e: nat)
    requires q <= e < |b| && b[e] == NUL && forall k: nat :: q <= k < e ==> b[k] != NUL
    ensures CString(b, q) == b[q..e]
    decreases e - q
  {
    if q < e {
      CStringIs(b, q + 1, e);
      assert b[q..e] == [b[q]] + b[q + 1..e];
    }
  }

  /** Where the words of a command end. */
  function Ends(c: Cmd<Span>): (r: set<nat>) {
    match c
    case Exec(args) => EndsOf(args)
    case Redir(d, to) => Ends(d) + {to.file.eq}
    case Pipe(l, r) => Ends(l) + Ends(r)
    case List(l, r) => Ends(l) + Ends(r)
    case Back(d) => Ends(d)
  }

  function EndsOf(args: seq<Span>): (r: set<nat>) {
    set w | w in args :: w.eq
  }

  /** A word ends only where a word can end. */
  predicate EndOk(line: string, e: nat) { e <= |line| && (e < |line| ==> !Plain(line[e])) }

  lemma {:induction false} EndsAllOk(line: string, c: Cmd<Span>)
    requires AllWords(Whole(line), c)
    ensures forall e :: e in Ends(c) ==> EndOk(line, e)
  {
    match c
    case Exec(args) =>
      forall e | e in Ends(c)
        ensures EndOk(line, e)
      {
        var w :| w in args && w.eq == e;
        var i: nat :| i < |args| && args[i] == w;
        assert Whole(line)(args[i]);
      }
    case Redir(d, to) =>
      EndsAllOk(line, d);
      assert Whole(line)(to.file);
    case Pipe(l, r) =>
      EndsAllOk(line, l);
      EndsAllOk(line, r);
    case List(l, r) =>
      EndsAllOk(line, l);
      EndsAllOk(line, r);
    case Back(d) =>
      EndsAllOk(line, d);
  }

  /** The buffer b holds line with a NUL at every position in ends, and at its end. */
  ghost predicate Cut(line: string, b: seq<char>, ends: set<nat>) {
    && |line| < |b| && b[|line|] == NUL
    && (forall k: nat :: k < |line| ==> line[k] != NUL && b[k] == if k in ends then NUL else line[k])
    && (forall e :: e in ends ==> EndOk(line, e))
  }

  /** Reading from the start of w gives the token. */
  ghost predicate ReadsTo(line: string, b: seq<char>, w: Span) {
    w.q <= w.eq <= |line| && CString(b, w.q) == line[w.q..w.eq]
  }

  ghost function Reads(line: string, b: seq<char>): (r: Span -> bool) { (w: Span) => ReadsTo(line, b, w) }

  lemma WordReads(line: string, b: seq<char>, ends: set<nat>, w: Span)
    requires Cut(line, b, ends) && IsWord(line, w) && w.eq in ends
    ensures ReadsTo(line, b, w)
  {
    CStringIs(b, w.q, w.eq);
    assert b[w.q..w.eq] == line[w.q..w.eq];
  }

  lemma {:induction false} AllRead(line: string, b: seq<char>, ends: set<nat>, c: Cmd<Span>)
    requires Cut(line, b, ends) && AllWords(Whole(line), c) && Ends(c) <= ends
    ensures AllWords(Reads(line, b), c)
  {
    match c
    case Exec(args) =>
      forall i: nat | i < |args|
        ensures Reads(line, b)(args[i])
      {
        assert Whole(line)(args[i]);
        assert args[i].eq in EndsOf(args);
        WordReads(line, b, ends, args[i]);
      }
    case Redir(d, to) =>
      AllRead(line, b, ends, d);
      assert Whole(line)(to.file);
      WordReads(line, b, ends, to.file);
    case Pipe(l, r) =>
      AllRead(line, b, ends, l);
      AllRead(line, b, ends, r);
    case List(l, r) =>
      AllRead(line, b, ends, l);
      AllRead(line, b, ends, r);
    case Back(d) =>
      AllRead(line, b, ends, d);
  }
}
