/** The regular expressions of grep (user/grep.c): what a pattern means, and the matcher of
    Kernighan and Pike proved against that meaning. */
module GrepMatch {

  /** A pattern is a list of items: one character, any number of one character, or the end
      of the text. The character '.' stands for every character. */
  datatype Item = One(c: char) | Star(c: char) | End

  function Items(re: string): (r: seq<Item>) {
    if re == "" then []
    else if |re| > 1 && re[1] == '*' then [Star(re[0])] + Items(re[2..])
    else if re == "$" then [End]
    else [One(re[0])] + Items(re[1..])
  }

  predicate Like(c: char, x: char) { c == '.' || c == x }

  /** The stretch of text from a to b is what the item describes. */
  predicate Piece(it: Item, text: string, a: nat, b: nat) {
    a <= b <= |text| &&
    match it
    case One(c) => b == a + 1 && Like(c, text[a])
    case Star(c) => forall k: nat :: a <= k < b ==> Like(c, text[k])
    case End => a == b == |text|
  }

  /** The text can be cut, from its start, into one piece for each item. */
  ghost predicate CutBy(items: seq<Item>, text: string, cuts: seq<nat>) {
    && |cuts| == |items| + 1 && cuts[0] == 0
    && forall i: nat :: i < |items| ==> Piece(items[i], text, cuts[i], cuts[i + 1])
  }

  ghost predicate Describes(items: seq<Item>, text: string) {
    exists cuts :: CutBy(items, text, cuts)
  }

  /** The pattern matches somewhere in the text, or at its start after '^'. */
  ghost predicate Matches(re: string, text: string) {
    if re != "" && re[0] == '^' then Describes(Items(re[1..]), text)
    else exists i: nat :: MatchesAt(re, text, i)
  }

  ghost predicate MatchesAt(re: string, text: string, i: nat) {
    i <= |text| && Describes(Items(re), text[i..])
  }

  // ----- cutting off the first piece -----

  lemma PieceShift(it: Item, text: string, n: nat, a: nat, b: nat)
    requires n <= |text|
    ensures Piece(it, text[n..], a, b) <==> Piece(it, text, a + n, b + n)
  {
    if it.Star? && a <= b && b + n <= |text| {
      assert forall k: nat :: a <= k < b ==> text[n..][k] == text[k + n];
      assert forall k: nat :: a + n <= k < b + n ==> text[k] == text[n..][k - n];
    }
  }

  lemma CutOff(it: Item, rest: seq<Item>, text: string, n: nat, cuts: seq<nat>)
    requires n <= |text| && Piece(it, text, 0, n) && CutBy(rest, text[n..], cuts)
    ensures Describes([it] + rest, text)
  {
    var all := [0] + seq(|cuts|, i requires 0 <= i < |cuts| => cuts[i] + n);
    forall i: nat | i < |[it] + rest|
      ensures Piece(([it] + rest)[i], text, all[i], all[i + 1])
    {
      if i > 0 {
        assert Piece(rest[i - 1], text[n..], cuts[i - 1], cuts[i]);
        PieceShift(rest[i - 1], text, n, cuts[i - 1], cuts[i]);
      }
    }
    assert CutBy([it] + rest, text, all);
  }

  lemma {:induction false} CutsRise(items: seq<Item>, text: string, cuts: seq<nat>, i: nat)
    requires CutBy(items, text, cuts) && 0 < i < |cuts|
    ensures cuts[1] <= cuts[i] <= |text|
  {
    assert Piece(items[i - 1], text, cuts[i - 1], cuts[i - 1 + 1]);
    if i > 1 { CutsRise(items, text, cuts, i - 1); }
  }

  lemma CutOn(it: Item, rest: seq<Item>, text: string, cuts: seq<nat>)
    requires CutBy([it] + rest, text, cuts)
    ensures cuts[1] <= |text| && Piece(it, text, 0, cuts[1]) && Describes(rest, text[cuts[1]..])
  {
    var items, n := [it] + rest, cuts[1];
    assert Piece(items[0], text, cuts[0], cuts[0 + 1]);
    forall i: nat | 0 < i < |cuts|
      ensures n <= cuts[i]
    {
      CutsRise(items, text, cuts, i);
    }
    var tail := seq<nat>(|cuts| - 1, i requires 0 <= i < |cuts| - 1 => if n <= cuts[i + 1] then cuts[i + 1] - n else 0);
    forall i: nat | i < |rest|
      ensures Piece(rest[i], text[n..], tail[i], tail[i + 1])
    {
      assert Piece(items[i + 1], text, cuts[i + 1], cuts[i + 1 + 1]);
      PieceShift(rest[i], text, n, tail[i], tail[i + 1]);
    }
    assert CutBy(rest, text[n..], tail);
  }

  /** A list of items describes a text exactly when its first item describes a piece at the
      start and the others what is left. */
  lemma FirstItem(it: Item, rest: seq<Item>, text: string)
    ensures Describes([it] + rest, text) <==> exists n: nat :: Splits(it, rest, text, n)
  {
    if Describes([it] + rest, text) {
      var cuts :| CutBy([it] + rest, text, cuts);
      CutOn(it, rest, text, cuts);
      assert Splits(it, rest, text, cuts[1]);
    }
    if n: nat :| Splits(it, rest, text, n) {
      var cuts :| CutBy(rest, text[n..], cuts);
      CutOff(it, rest, text, n, cuts);
    }
  }

  ghost predicate Splits(it: Item, rest: seq<Item>, text: string, n: nat) {
    n <= |text| && Piece(it, text, 0, n) && Describes(rest, text[n..])
  }

  lemma NoItems(text: string)
    ensures Describes([], text)
  {
    assert CutBy([], text, [0]);
  }

  lemma OneItem(c: char, rest: seq<Item>, text: string)
    ensures Describes([One(c)] + rest, text) <==> text != "" && Like(c, text[0]) && Describes(rest, text[1..])
  {
    FirstItem(One(c), rest, text);
    assert text != "" && Like(c, text[0]) && Describes(rest, text[1..]) ==> Splits(One(c), rest, text, 1);
  }

  lemma EndItem(text: string)
    ensures Describes([End], text) <==> text == ""
  {
    var none: seq<Item> := [];
    FirstItem(End, none, text);
    assert [End] + none == [End];
    NoItems(text[0..]);
    assert text == "" ==> Splits(End, none, text, 0);
  }

  // ----- the matcher -----

  /** match: what it returns is what the pattern means. */
  method Match(re: string, text: string) returns (b: bool)
    ensures b <==> Matches(re, text)
  {
    if re != "" && re[0] == '^' {
      b := MatchHere(re[1..], text);
      return;
    }
    var i := 0;
    while true
      invariant i <= |text| && forall k: nat :: k < i ==> !MatchesAt(re, text, k)
      decreases |text| - i
    {
      b := MatchHere(re, text[i..]);
      assert b <==> MatchesAt(re, text, i);
      if b || i == |text| {
        break;
      }
      i := i + 1;
    }
  }

  /** matchhere. */
  method MatchHere(re: string, text: string) returns (b: bool)
    ensures b <==> Describes(Items(re), text)
    decreases |re|, 1
  {
    if re == "" {
      NoItems(text);
      return true;
    }
    if |re| > 1 && re[1] == '*' {
      b := MatchStar(re[0], re[2..], text);
    } else if re == "$" {
      EndItem(text);
      b := text == "";
    } else {
      OneItem(re[0], Items(re[1..]), text);
      if text != "" && (re[0] == '.' || re[0] == text[0]) {
        b := MatchHere(re[1..], text[1..]);
      } else {
        b := false;
      }
    }
  }

  /** matchstar. */
  method MatchStar(c: char, re: string, text: string) returns (b: bool)
    ensures b <==> Describes([Star(c)] + Items(re), text)
    decreases |re|, 2
  {
    FirstItem(Star(c), Items(re), text);
    var n := 0;
    while true
      invariant n <= |text| && Piece(Star(c), text, 0, n)
      invariant forall k: nat :: k < n ==> !Splits(Star(c), Items(re), text, k)
      decreases |text| - n
    {
      b := MatchHere(re, text[n..]);
      assert b <==> Splits(Star(c), Items(re), text, n);
      if b || n == |text| || !(text[n] == c || c == '.') {
        break;
      }
      n := n + 1;
    }
    assert !b ==> forall k: nat :: !Splits(Star(c), Items(re), text, k);
  }
}
