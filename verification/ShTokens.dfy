/** The tokens of a command line (gettoken and peek in user/sh.c). */
module ShTokens {
  import opened Common
  import opened ShGrammar
  import opened ShWords

  /** Where a word starts and where it ends. */
  datatype Span = Span(q: nat, eq: nat)

  predicate IsSpace(c: char) { c == ' ' || c == '\t' || c == '\r' || c == '\n' || c == 11 as char }

  predicate IsSymbol(c: char) { c in "<|>&;()" }

  /** A character that belongs to a word. */
  predicate Plain(c: char) { !IsSpace(c) && !IsSymbol(c) }

  function Skip(s: string, i: nat): (j: nat)
    requires i <= |s|
    ensures i <= j <= |s| && (j < |s| ==> !IsSpace(s[j])) && forall k: nat :: i <= k < j ==> IsSpace(s[k])
    decreases |s| - i
  {
    if i < |s| && IsSpace(s[i]) then Skip(s, i + 1) else i
  }

  function WordEnd(s: string, i: nat): (j: nat)
    requires i <= |s|
    ensures i <= j <= |s| && (j < |s| ==> !Plain(s[j])) && forall k: nat :: i <= k < j ==> Plain(s[k])
    decreases |s| - i
  {
    if i < |s| && Plain(s[i]) then WordEnd(s, i + 1) else i
  }

  /** The token that starts at j, and where it ends. */
  function First(s: string, j: nat): (r: (Tok<Span>, nat))
    requires j < |s| && !IsSpace(s[j])
    ensures j < r.1 <= |s|
  {
    match s[j]
    case '|' => (Bar, j + 1)
    case '(' => (Open, j + 1)
    case ')' => (Close, j + 1)
    case ';' => (Semi, j + 1)
    case '&' => (Amp, j + 1)
    case '<' => (Arrow(In), j + 1)
    case '>' => if j + 1 < |s| && s[j + 1] == '>' then (Arrow(Append), j + 2) else (Arrow(Out), j + 1)
    case _ => (Word(Span(j, WordEnd(s, j))), WordEnd(s, j))
  }

  /** The tokens from position i on. */
  function Lex(s: string, i: nat): (ts: seq<Tok<Span>>)
    requires i <= |s|
    ensures |ts| <= |s| - i
    decreases |s| - i
  {
    var j := Skip(s, i);
    if j == |s| then [] else [First(s, j).0] + Lex(s, First(s, j).1)
  }

  /** A word, whole: plain characters up to a space, a symbol or the end. */
  predicate IsWord(s: string, w: Span) {
    && w.q < w.eq <= |s| && (forall k: nat :: w.q <= k < w.eq ==> Plain(s[k]))
    && (w.eq < |s| ==> !Plain(s[w.eq]))
  }

  /** Every word among the tokens is whole. */
  lemma {:induction false} LexWords(s: string, i: nat)
    requires i <= |s|
    ensures AllToks(Whole(s), Lex(s, i))
    decreases |s| - i
  {
    var j := Skip(s, i);
    if j < |s| {
      LexWords(s, First(s, j).1);
      AppendToks(Whole(s), [First(s, j).0], Lex(s, First(s, j).1));
    }
  }

  function Whole(s: string): (r: Span -> bool) { (w: Span) => IsWord(s, w) }

  lemma LexSkip(s: string, i: nat)
    requires i <= |s|
    ensures Lex(s, Skip(s, i)) == Lex(s, i)
  {}

  // ----- spelling tokens out and reading them back -----

  function ModeText(m: Mode): (r: string) {
    match m
    case In => "<"
    case Out => ">"
    case Append => ">>"
  }

  function Text(t: Tok<string>): (r: string) {
    match t
    case Word(w) => w
    case Bar => "|"
    case Open => "("
    case Close => ")"
    case Semi => ";"
    case Amp => "&"
    case Arrow(m) => ModeText(m)
  }

  const BLANKS := " \t\r\n\U{b}"
  const SYMBOLS := "<|>&;()"

  /** A word that needs no quoting, which the shell does not have. */
  predicate GoodWord(w: string) { w != "" && forall k: nat :: k < |w| ==> w[k] !in BLANKS + SYMBOLS && w[k] != NUL }

  /** The text of a span. */
  function Reader(s: string): (r: Span -> string) {
    (w: Span) => if w.q <= w.eq <= |s| then s[w.q..w.eq] else ""
  }

  /** The tokens with their texts. */
  function ReadAll(s: string, ts: seq<Tok<Span>>): (r: seq<Tok<string>>) { MapAll(Reader(s), ts) }

  lemma {:induction false} WordEndAt(s: string, i: nat, e: nat)
    requires i <= e < |s| && !Plain(s[e]) && forall k: nat :: i <= k < e ==> Plain(s[k])
    ensures WordEnd(s, i) == e
    decreases e - i
  {
    if i < e { WordEndAt(s, i + 1, e); }
  }

  lemma ReadNext(s: string, t: Tok<Span>, ts: seq<Tok<Span>>)
    ensures ReadAll(s, [t] + ts) == [MapTok(Reader(s), t)] + ReadAll(s, ts)
  {}

  /** The tokens from position i on are ts. */
  predicate ReadsFrom(s: string, i: nat, ts: seq<Tok<string>>) { i <= |s| && ReadAll(s, Lex(s, i)) == ts }
}
