/** What grep prints (user/grep.c), as a function of the whole input. */
module GrepSpec {
  import opened Common
  import opened GrepMatch

  const BUFSIZE: nat := 1024
  /** strchr(s, '\n'): the first newline, if no NUL comes before it, and -1 otherwise. */
  function Newline(s: string): (k: int)
    ensures -1 <= k < |s| && (k >= 0 ==> s[k] == '\n')
    ensures forall i: nat :: i < k ==> s[i] != NUL && s[i] != '\n'
  {
    if s == "" || s[0] == NUL then -1
    else if s[0] == '\n' then 0
    else var k := Newline(s[1..]); if k < 0 then -1 else k + 1
  }

  /** What grep prints: the matching lines in order, up to the first line that does not end,
      that a NUL cuts short or that does not fit in the buffer with its newline. */
  ghost function Selected(re: string, input: string): (r: string)
    decreases |input|
  {
    var k := Newline(input);
    if k < 0 || k + 1 > BUFSIZE - 1 then ""
    else Printed(re, input[..k]) + Selected(re, input[k + 1..])
  }

  /** What is printed for one line. */
  ghost function Printed(re: string, line: string): (r: string) { if Matches(re, line) then line + "\n" else "" }

  lemma {:induction false} NewlineAt(s: string, k: nat)
    requires k < |s| && s[k] == '\n' && forall i: nat :: i < k ==> s[i] != NUL && s[i] != '\n'
    ensures Newline(s) == k
  {
    if k > 0 { NewlineAt(s[1..], k - 1); }
  }

  lemma {:induction false} NoNewline(s: string, k: nat)
    requires k <= |s| && (k == |s| || s[k] == NUL) && forall i: nat :: i < k ==> s[i] != '\n'
    ensures Newline(s) < 0
  {
    if k > 0 && s[0] != NUL { NoNewline(s[1..], k - 1); }
  }

  /** More input does not change a newline that has been found, and none is found before the
      end of what had none. */
  lemma {:induction false} NewlineMore(a: string, b: string)
    ensures Newline(a) >= 0 ==> Newline(a + b) == Newline(a)
    ensures Newline(a) < 0 ==> Newline(a + b) < 0 || Newline(a + b) >= |a|
  {
    if a == "" {
      assert a + b == b;
    } else {
      assert (a + b)[1..] == a[1..] + b;
      NewlineMore(a[1..], b);
    }
  }

  /** One line taken off the front. */
  lemma SelectLine(re: string, line: string, rest: string)
    requires |line| + 1 <= BUFSIZE - 1 && forall i: nat :: i < |line| ==> line[i] != NUL && line[i] != '\n'
    ensures Selected(re, line + "\n" + rest) == Printed(re, line) + Selected(re, rest)
  {
    var s := line + "\n" + rest;
    NewlineAt(s, |line|);
    assert s[..|line|] == line && s[|line| + 1..] == rest;
  }

  // ----- printing in steps -----

  /** What s selects, before rest, is one and then what s' selects. */
  ghost predicate Step(re: string, s: string, one: string, s': string, rest: string) {
    Selected(re, s + rest) == one + Selected(re, s' + rest)
  }

  lemma NoStep(re: string, s: string, rest: string)
    ensures Step(re, s, "", s, rest)
  {}

  lemma TwoSteps(re: string, s: string, out: string, t: string, one: string, u: string, rest: string)
    requires Step(re, s, out, t, rest) && Step(re, t, one, u, rest)
    ensures Step(re, s, out + one, u, rest)
  {
    Regroup(out, one, Selected(re, u + rest));
  }

  lemma Cut(s: string, k: nat, rest: string)
    requires k < |s| && s[k] == '\n'
    ensures s + rest == s[..k] + "\n" + (s[k + 1..] + rest)
  {
    assert s == s[..k] + "\n" + s[k + 1..];
    Regroup(s[..k] + "\n", s[k + 1..], rest);
  }

  /** The line of s that ends at k. */
  lemma LineStep(re: string, s: string, k: nat, rest: string)
    requires k == Newline(s) && |s| <= BUFSIZE - 1
    ensures Step(re, s, Printed(re, s[..k]), s[k + 1..], rest)
  {
    Cut(s, k, rest);
    SelectLine(re, s[..k], s[k + 1..] + rest);
  }

  /** With at bytes read, out printed and s in the buffer, what is still to be printed is
      what s and the rest of the input select. */
  ghost predicate Progress(re: string, input: string, at: nat, out: string, s: string) {
    at <= |input| && Selected(re, input) == out + Selected(re, s + input[at..])
  }

  lemma NoProgress(re: string, input: string, s: string)
    requires s == ""
    ensures Progress(re, input, 0, "", s)
  {
    assert s + input[0..] == input;
  }

  lemma ReadProgress(re: string, input: string, at: nat, next: nat, out: string, s: string, one: string, s': string)
    requires Progress(re, input, at, out, s) && at <= next <= |input|
    requires Step(re, s + input[at..next], one, s', input[next..])
    ensures Progress(re, input, next, out + one, s')
  {
    assert input[at..] == input[at..next] + input[next..];
    Regroup(s, input[at..next], input[next..]);
    Regroup(out, one, Selected(re, s' + input[next..]));
  }

  /** A buffer that holds no whole line selects nothing once it is full, or at the end. */
  lemma Stuck(re: string, input: string, at: nat, out: string, s: string)
    requires Progress(re, input, at, out, s) && Newline(s) < 0 && (|s| == BUFSIZE - 1 || at == |input|)
    ensures out == Selected(re, input)
  {
    var rest := input[at..];
    NewlineMore(s, rest);
    if rest == "" { assert s + rest == s; }
    assert Selected(re, s + rest) == "";
  }

  // ----- what is selected -----

  /** A stretch of input between newlines. */
  predicate Unbroken(line: string) { forall i: nat :: i < |line| ==> line[i] != '\n' }

  predicate HasNul(line: string) { exists i: nat :: i < |line| && line[i] == NUL }

  /** A line that the loop cannot get past: a NUL hides its newline, or the two do not fit in
      the buffer. */
  predicate Blocks(line: string) { HasNul(line) || |line| + 1 > BUFSIZE - 1 }

  function Join(lines: seq<string>): (r: string) {
    if lines == [] then "" else lines[0] + "\n" + Join(lines[1..])
  }

  ghost function Matching(re: string, lines: seq<string>): (r: seq<string>) {
    if lines == [] then []
    else (if Matches(re, lines[0]) then [lines[0]] else []) + Matching(re, lines[1..])
  }

  /** The first line that blocks, or the number of lines. */
  function FirstBlock(lines: seq<string>): (k: nat)
    ensures k <= |lines| && (k < |lines| ==> Blocks(lines[k])) && forall i: nat :: i < k ==> !Blocks(lines[i])
  {
    if lines == [] || Blocks(lines[0]) then 0 else FirstBlock(lines[1..]) + 1
  }

  lemma {:induction false} NulHides(s: string, k: nat, rest: string)
    requires k < |s| && s[k] == NUL && Unbroken(s)
    ensures Newline(s + rest) < 0
    decreases |s|
  {
    if k > 0 && s[0] != NUL {
      assert (s + rest)[1..] == s[1..] + rest;
      NulHides(s[1..], k - 1, rest);
    }
  }

  lemma BlockStops(re: string, line: string, rest: string)
    requires Unbroken(line) && Blocks(line)
    ensures Selected(re, line + "\n" + rest) == ""
  {
    assert line + "\n" + rest == line + ("\n" + rest);
    if HasNul(line) {
      var k: nat :| k < |line| && line[k] == NUL;
      NulHides(line, k, "\n" + rest);
    } else {
      NewlineAt(line + "\n" + rest, |line|);
    }
  }

  lemma NothingLeft(re: string, last: string)
    requires Unbroken(last)
    ensures Selected(re, last) == ""
  {
    NoNewline(last, |last|);
  }

  lemma JoinMatching(re: string, line: string, lines: seq<string>)
    ensures Join(Matching(re, [line] + lines)) == Printed(re, line) + Join(Matching(re, lines))
  {
    assert ([line] + lines)[1..] == lines;
    var more := Matching(re, lines);
    if Matches(re, line) {
      assert ([line] + more)[1..] == more;
    } else {
      assert Matching(re, [line] + lines) == more;
    }
  }

  /** Any input is lines that end in a newline, and a last piece that does not. grep prints
      exactly the matching ones of the lines before the first that blocks, in order. */
  lemma {:induction false} SelectsMatching(re: string, lines: seq<string>, last: string)
    requires (forall i: nat :: i < |lines| ==> Unbroken(lines[i])) && Unbroken(last)
    ensures Selected(re, Join(lines) + last) == Join(Matching(re, lines[..FirstBlock(lines)]))
  {
    if lines == [] {
      assert Join(lines) + last == last;
      NothingLeft(re, last);
    } else {
      var rest := Join(lines[1..]) + last;
      assert Join(lines) + last == lines[0] + "\n" + rest;
      if Blocks(lines[0]) {
        BlockStops(re, lines[0], rest);
      } else {
        var k := FirstBlock(lines[1..]);
        assert lines[..k + 1] == [lines[0]] + lines[1..][..k];
        SelectLine(re, lines[0], rest);
        SelectsMatching(re, lines[1..], last);
        JoinMatching(re, lines[0], lines[1..][..k]);
      }
    }
  }

  lemma {:induction false} MatchingAppend(re: string, a: seq<string>, b: seq<string>)
    ensures Matching(re, a + b) == Matching(re, a) + Matching(re, b)
  {
    if a == [] {
      assert a + b == b;
    } else {
      var first := if Matches(re, a[0]) then [a[0]] else [];
      assert (a + b)[1..] == a[1..] + b;
      MatchingAppend(re, a[1..], b);
      Regroup(first, Matching(re, a[1..]), Matching(re, b));
    }
  }

  lemma {:induction false} JoinAppend(a: seq<string>, b: seq<string>)
    ensures Join(a + b) == Join(a) + Join(b)
  {
    if a == [] {
      assert a + b == b;
    } else {
      assert (a + b)[1..] == a[1..] + b;
      JoinAppend(a[1..], b);
      Regroup(a[0] + "\n", Join(a[1..]), Join(b));
    }
  }

  /** Every matching line is printed exactly when none of them is at or after the first line
      that blocks. */
  lemma AllPrinted(re: string, lines: seq<string>, last: string)
    requires (forall i: nat :: i < |lines| ==> Unbroken(lines[i])) && Unbroken(last)
    ensures Selected(re, Join(lines) + last) == Join(Matching(re, lines)) <==>
        Matching(re, lines[FirstBlock(lines)..]) == []
  {
    var k := FirstBlock(lines);
    var a, b := Matching(re, lines[..k]), Matching(re, lines[k..]);
    SelectsMatching(re, lines, last);
    MatchingAppend(re, lines[..k], lines[k..]);
    assert lines == lines[..k] + lines[k..];
    JoinAppend(a, b);
    assert b != [] ==> |Join(b)| > 0;
  }

  /** A line that does not fit in the buffer hides the line after it, which matches. */
  lemma LineLost(re: string, long: string, line: string)
    requires Unbroken(long) && |long| == BUFSIZE - 1 && Unbroken(line) && Matches(re, line) && !Matches(re, long)
    ensures Selected(re, long + "\n" + (line + "\n")) == ""
    ensures Join(Matching(re, [long, line])) == line + "\n"
  {
    BlockStops(re, long, line + "\n");
    var none: seq<string> := [];
    assert [long, line] == [long] + [line] && [line] == [line] + none;
    JoinMatching(re, long, [line]);
    JoinMatching(re, line, none);
  }
}
