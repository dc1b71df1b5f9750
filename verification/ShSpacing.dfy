/** A command line is read the same whatever white space stands between its tokens, and where two tokens cannot
    run together, if none does (gettoken in user/sh.c). */
module ShSpacing {
  import opened ShGrammar
  import opened ShWords
  import opened ShTokens

  predicate Blank(gap: string) { forall k: nat :: k < |gap| ==> gap[k] in BLANKS }

  /** Tokens that would be read as one. */
  predicate RunTogether(t: Tok<string>, u: Tok<string>) {
    (t.Word? && u.Word?) || (t == Arrow(Out) && u.Arrow? && u.mode != In)
  }

  /** The tokens with gaps[0] before them and gaps[k + 1] after token k. */
  function Spaced(ts: seq<Tok<string>>, gaps: seq<string>): (line: string)
    requires |gaps| == |ts| + 1
  {
    gaps[0] + if ts == [] then "" else Text(ts[0]) + Spaced(ts[1..], gaps[1..])
  }

  /** Gaps that keep the tokens apart. */
  predicate Separates(ts: seq<Tok<string>>, gaps: seq<string>) {
    && |gaps| == |ts| + 1
    && (forall k: nat :: k < |gaps| ==> Blank(gaps[k]))
    && (forall k: nat :: 0 < k < |ts| && RunTogether(ts[k - 1], ts[k]) ==> gaps[k] != "")
  }

  /** From position n on the line consists of the tokens and gaps. */
  predicate At(s: string, n: nat, ts: seq<Tok<string>>, gaps: seq<string>) {
    n <= |s| && |gaps| == |ts| + 1 && s[n..] == Spaced(ts, gaps)
  }

  lemma AtNext(s: string, n: nat, ts: seq<Tok<string>>, gaps: seq<string>, m: nat, e: nat)
    requires At(s, n, ts, gaps) && ts != [] && m == n + |gaps[0]| && e == m + |Text(ts[0])|
    ensures e <= |s| && s[n..m] == gaps[0] && s[m..e] == Text(ts[0]) && At(s, e, ts[1..], gaps[1..])
  {
    var a, b, rest := gaps[0], Text(ts[0]), Spaced(ts[1..], gaps[1..]);
    assert s[n..] == a + (b + rest);
    assert s[n..][..|a|] == a;
    assert s[n..][|a|..|a| + |b|] == b;
    assert s[n..][|a| + |b|..] == rest;
  }

  lemma {:induction false} SkipTo(s: string, n: nat, m: nat)
    requires n <= m <= |s| && (m < |s| ==> !IsSpace(s[m])) && forall k: nat :: n <= k < m ==> IsSpace(s[k])
    ensures Skip(s, n) == m
    decreases m - n
  {
    if n < m { SkipTo(s, n + 1, m); }
  }

  lemma SkipGap(s: string, n: nat, m: nat, gap: string)
    requires n <= m <= |s| && s[n..m] == gap && Blank(gap) && (m < |s| ==> !IsSpace(s[m]))
    ensures Skip(s, n) == m
  {
    forall k: nat | n <= k < m ensures IsSpace(s[k]) { assert s[k] == gap[k - n]; }
    SkipTo(s, n, m);
  }

  /** What comes at e does not belong to token t. */
  predicate Stops(s: string, e: nat, t: Tok<string>)
    requires e <= |s|
  {
    e < |s| ==> (t.Word? ==> !Plain(s[e])) && (t == Arrow(Out) ==> s[e] != '>')
  }

  lemma TextStarts(t: Tok<string>)
    requires TokHas(GoodWord, t)
    ensures Text(t) != "" && (t.Word? <==> Text(t)[0] !in SYMBOLS) && Text(t)[0] !in BLANKS
    ensures Text(t)[0] == '>' <==> t.Arrow? && t.mode != In
  {}

  lemma Stopped(s: string, e: nat, t: Tok<string>, more: seq<Tok<string>>, gaps: seq<string>)
    requires At(s, e, more, gaps) && Blank(gaps[0]) && AllToks(GoodWord, more)
    requires more != [] && RunTogether(t, more[0]) ==> gaps[0] != ""
    ensures Stops(s, e, t)
  {
    if e < |s| {
      assert s[e..][0] == s[e];
      if gaps[0] != "" {
        assert s[e] == gaps[0][0];
      } else if more != [] {
        TextStarts(more[0]);
        assert s[e] == Text(more[0])[0];
      }
    }
  }

  lemma FirstIs(s: string, m: nat, e: nat, t: Tok<string>)
    requires TokHas(GoodWord, t) && m <= e <= |s| && s[m..e] == Text(t) && Stops(s, e, t)
    ensures m < e && !IsSpace(s[m]) && First(s, m).1 == e && MapTok(Reader(s), First(s, m).0) == t
  {
    TextStarts(t);
    forall k: nat | m <= k < e ensures s[k] == Text(t)[k - m] {}
    if t.Word? {
      if e < |s| { WordEndAt(s, m, e); } else { WordEndLast(s, m); }
    }
  }

  lemma {:induction false} WordEndLast(s: string, i: nat)
    requires i <= |s| && forall k: nat :: i <= k < |s| ==> Plain(s[k])
    ensures WordEnd(s, i) == |s|
    decreases |s| - i
  {
    if i < |s| { WordEndLast(s, i + 1); }
  }

  lemma SeparatesRest(ts: seq<Tok<string>>, gaps: seq<string>)
    requires Separates(ts, gaps) && ts != []
    ensures Separates(ts[1..], gaps[1..])
  {
    forall k: nat | 0 < k < |ts[1..]| && RunTogether(ts[1..][k - 1], ts[1..][k]) ensures gaps[1..][k] != "" {
      assert RunTogether(ts[k + 1 - 1], ts[k + 1]);
    }
  }

  lemma {:induction false} ReadsSpaced(s: string, n: nat, ts: seq<Tok<string>>, gaps: seq<string>)
    requires At(s, n, ts, gaps) && Separates(ts, gaps) && AllToks(GoodWord, ts)
    ensures ReadsFrom(s, n, ts)
    decreases |ts|
  {
    if ts == [] {
      assert s[n..] == gaps[0];
      SkipGap(s, n, |s|, gaps[0]);
      assert Lex(s, n) == [];
    } else {
      var t, more, m := ts[0], ts[1..], n + |gaps[0]|;
      var e := m + |Text(t)|;
      AtNext(s, n, ts, gaps, m, e);
      DropToks(GoodWord, ts, 1);
      SeparatesRest(ts, gaps);
      ReadsSpaced(s, e, more, gaps[1..]);
      assert more != [] ==> ts[1] == more[0];
      Stopped(s, e, t, more, gaps[1..]);
      assert TokHas(GoodWord, t);
      FirstIs(s, m, e, t);
      SkipGap(s, n, m, gaps[0]);
      ReadNext(s, First(s, m).0, Lex(s, e));
      assert ts == [t] + more;
    }
  }

  /** However tokens are spaced, they are read back. */
  lemma AnySpacing(ts: seq<Tok<string>>, gaps: seq<string>)
    requires Separates(ts, gaps) && AllToks(GoodWord, ts)
    ensures var line := Spaced(ts, gaps); ReadAll(line, Lex(line, 0)) == ts
  {
    var line := Spaced(ts, gaps);
    assert line[0..] == line;
    ReadsSpaced(line, 0, ts, gaps);
  }
}
