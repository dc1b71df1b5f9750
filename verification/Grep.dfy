/** The streaming loop of grep (user/grep.c): a buffer of 1024 bytes that is filled, searched
    line by line and shifted down. */
module Grep {
  import opened Common
  import opened GrepMatch
  import opened GrepSpec

  /** Where in the buffer the newline of s is, when s starts at p. */
  function Place(p: nat, s: string): (r: int) { if Newline(s) < 0 then -1 else p + Newline(s) }

  /** The inner loop's search, over buf from p on; buf[m] is a NUL. */
  method FindNewline(buf: array<char>, p: nat, m: nat, ghost s: string) returns (q: int)
    requires p <= m < buf.Length && buf[m] == NUL && s == buf[p..m]
    ensures q == Place(p, s)
  {
    var i := p;
    while buf[i] != NUL
      invariant p <= i <= m
      invariant forall k: nat :: p <= k < i ==> buf[k] != NUL && buf[k] != '\n'
      decreases m - i
    {
      if buf[i] == '\n' {
        assert s[i - p] == '\n';
        NewlineAt(s, i - p);
        return i;
      }
      i := i + 1;
    }
    NoNewline(s, i - p);
    q := -1;
  }

  /** memmove(buf, p, n). */
  method ShiftDown(buf: array<char>, p: nat, n: nat)
    requires p + n <= buf.Length
    modifies buf
    ensures buf[..n] == old(buf[p..p + n])
  {
    var i := 0;
    while i < n
      invariant i <= n
      invariant forall k: nat :: k < i ==> buf[k] == old(buf[p + k])
      invariant forall k: nat :: p + i <= k < p + n ==> buf[k] == old(buf[k])
    {
      buf[i] := buf[p + i];
      i := i + 1;
    }
  }

  /** One line that ends at q: printed, with its newline, if it matches. */
  method OneLine(re: string, buf: array<char>, p: nat, q: nat, ghost line: string) returns (out: string)
    requires p <= q < buf.Length && buf[q] == '\n' && line == buf[p..q]
    modifies buf
    ensures out == Printed(re, line)
    ensures forall k: nat :: k < buf.Length && k != q ==> buf[k] == old(buf[k])
  {
    buf[q] := NUL;
    assert buf[p..q] == line;
    out := "";
    var b := Match(re, buf[p..q]);
    if b {
      buf[q] := '\n';
      assert buf[p..q + 1] == line + "\n";
      out := buf[p..q + 1];
    }
  }

  /** A round of the inner loop. */
  method Round(re: string, buf: array<char>, p: nat, q: nat, m: nat, ghost s: string, ghost rest: string)
    returns (one: string, ghost s': string)
    requires p <= q < m < buf.Length == BUFSIZE && buf[m] == NUL && s == buf[p..m] && q - p == Newline(s)
    modifies buf
    ensures buf[m] == NUL && s' == buf[q + 1..m] && Step(re, s, one, s', rest)
  {
    ghost var k := q - p;
    ghost var line := s[..k];
    assert line == buf[p..q] && buf[q] == s[k];
    s' := s[k + 1..];
    one := OneLine(re, buf, p, q, line);
    assert buf[q + 1..m] == s';
    LineStep(re, s, k, rest);
  }

  /** The inner loop: prints the matching lines of buf[..m], and says where the first
      unfinished line starts. */
  method Lines(re: string, buf: array<char>, m: nat, ghost s0: string, ghost rest: string)
    returns (p: nat, out: string, ghost s: string)
    requires buf.Length == BUFSIZE && m < BUFSIZE && buf[m] == NUL && s0 == buf[..m]
    modifies buf
    ensures p <= m && s == buf[p..m] && Newline(s) < 0 && Step(re, s0, out, s, rest)
  {
    p, out, s := 0, "", s0;
    assert buf[0..m] == s0;
    NoStep(re, s0, rest);
    var q := FindNewline(buf, p, m, s);
    while q >= 0
      invariant p <= m && buf[m] == NUL && s == buf[p..m]
      invariant q == Place(p, s) && Step(re, s0, out, s, rest)
      decreases m - p
    {
      var one;
      ghost var s';
      one, s' := Round(re, buf, p, q, m, s, rest);
      TwoSteps(re, s0, out, s, one, s', rest);
      p, out, s := q + 1, out + one, s';
      q := FindNewline(buf, p, m, s);
    }
  }

  /** How many bytes read(fd, buf + m, room) returns in round i: at least one, unless there
      is no room or nothing left. */
  function Chunk(pick: nat -> nat, i: nat, room: nat, left: nat): (n: nat)
    ensures n <= room && n <= left && (n == 0 <==> room == 0 || left == 0)
  {
    var most := if room < left then room else left;
    var want := pick(i);
    if most == 0 then 0 else if want == 0 then 1 else if want < most then want else most
  }

  /** read(fd, buf + m, n) and the NUL after it. */
  method Fill(buf: array<char>, m: nat, more: string)
    requires m + |more| < buf.Length
    modifies buf
    ensures buf[..m + |more|] == old(buf[..m]) + more && buf[m + |more|] == NUL
  {
    var i := 0;
    while i < |more|
      invariant i <= |more| && buf[..m + i] == old(buf[..m]) + more[..i]
    {
      buf[m + i] := more[i];
      i := i + 1;
    }
    ghost var now := buf[..m + i];
    buf[m + |more|] := NUL;
    assert buf[..m + |more|] == now;
  }

  /** A round of the outer loop, in which read has returned more. */
  method OneRead(re: string, buf: array<char>, m: nat, more: string, ghost s: string, ghost rest: string)
    returns (left: nat, out: string, ghost s': string)
    requires buf.Length == BUFSIZE && m + |more| < BUFSIZE && s == buf[..m]
    modifies buf
    ensures left < BUFSIZE && s' == buf[..left] && Newline(s') < 0 && Step(re, s + more, out, s', rest)
  {
    Fill(buf, m, more);
    var n := m + |more|;
    var p;
    p, out, s' := Lines(re, buf, n, s + more, rest);
    ShiftDown(buf, p, n - p);
    left := n - p;
  }

  /** grep: however read splits the input, the output is the lines it selects. */
  method Grep(re: string, input: string, pick: nat -> nat) returns (out: string)
    ensures out == Selected(re, input)
  {
    var buf := new char[BUFSIZE];
    var m: nat, at: nat, round: nat := 0, 0, 0;
    out := "";
    ghost var s := buf[..0];
    NoProgress(re, input, s);
    while true
      invariant m < BUFSIZE && at <= |input| && s == buf[..m] && Newline(s) < 0
      invariant Progress(re, input, at, out, s)
      decreases |input| - at
    {
      var n := Chunk(pick, round, BUFSIZE - m - 1, |input| - at);
      if n == 0 {
        break;
      }
      var next, one := at + n, "";
      ghost var s';
      m, one, s' := OneRead(re, buf, m, input[at..next], s, input[next..]);
      ReadProgress(re, input, at, next, out, s, one, s');
      out, s, at, round := out + one, s', next, round + 1;
    }
    Stuck(re, input, at, out, s);
  }
}
