/** The buffer cache (kernel/bio.c) as a value: the buffers and their order on
    the circular list, from head.next (most recently released) to head.prev.

    Each operation below is one critical section of bcache.lock or of a buffer's
    sleep lock, so a sequence of operations is an interleaving of processes. */
module BufferCache {
  import opened Common
  import opened Blocks

  const NBUF := 30

  datatype Buf = Buf(valid: bool, dev: nat, blockno: nat, locked: bool, refcnt: nat, data: Block)

  type BufId = n: nat | n < NBUF

  datatype CacheData = Cache(order: seq<BufId>, bufs: seq<Buf>)

  type Cache = c: CacheData | |c.order| == NBUF && |c.bufs| == NBUF witness Init()

  /** The list holds every buffer exactly once. */
  ghost predicate IsOrder(order: seq<BufId>) {
    |order| == NBUF && Distinct(order)
  }

  ghost predicate Shape(c: Cache) {
    IsOrder(c.order)
  }

  /** No block of a real device (device numbers start at 1) has two buffers. */
  ghost predicate Unique(c: Cache) {
    forall i: BufId, j: BufId :: i != j && c.bufs[i].dev != 0 && c.bufs[i].dev == c.bufs[j].dev ==>
      c.bufs[i].blockno != c.bufs[j].blockno
  }

  predicate Holds(b: Buf, dev: nat, blockno: nat) {
    b.dev == dev && b.blockno == blockno
  }

  /** bget's first loop: from list position i towards the tail. */
  function FirstMatch(c: Cache, dev: nat, blockno: nat, i: nat): (r: nat)
    requires i <= NBUF
    ensures i <= r <= NBUF
    ensures r < NBUF ==> Holds(c.bufs[c.order[r]], dev, blockno)
    ensures forall k :: i <= k < r ==> !Holds(c.bufs[c.order[k]], dev, blockno)
    decreases NBUF - i
  {
    if i == NBUF || Holds(c.bufs[c.order[i]], dev, blockno) then i
    else FirstMatch(c, dev, blockno, i + 1)
  }

  /** bget's second loop: from before list position i towards the head. */
  function LastUnused(c: Cache, i: nat): (r: int)
    requires i <= NBUF
    ensures -1 <= r < i
    ensures r >= 0 ==> c.bufs[c.order[r]].refcnt == 0
    ensures forall k :: r < k < i ==> c.bufs[c.order[k]].refcnt != 0
  {
    if i == 0 then -1
    else if c.bufs[c.order[i - 1]].refcnt == 0 then i - 1
    else LastUnused(c, i - 1)
  }

  /** bget up to the release of bcache.lock: the chosen buffer, or None for the
      "bget: no buffers" panic. */
  function Choose(c: Cache, dev: nat, blockno: nat): (r: Option<BufId>)
  {
    var hit := FirstMatch(c, dev, blockno, 0);
    if hit < NBUF then Some(c.order[hit])
    else
      var victim := LastUnused(c, NBUF);
      if victim >= 0 then Some(c.order[victim]) else None
  }

  function Get(c: Cache, dev: nat, blockno: nat): (r: Cache)
    requires Choose(c, dev, blockno).Some?
  {
    var b := Choose(c, dev, blockno).value;
    if Holds(c.bufs[b], dev, blockno) then
      SetBuf(c, b, c.bufs[b].(refcnt := c.bufs[b].refcnt + 1))
    else
      SetBuf(c, b, c.bufs[b].(dev := dev, blockno := blockno, valid := false, refcnt := 1))
  }

  function SetBuf(c: Cache, b: BufId, x: Buf): (r: Cache)
  {
    c.(bufs := c.bufs[b := x])
  }

  function Remove(order: seq<BufId>, b: BufId): (r: seq<BufId>)
    ensures |r| == if b in order then |order| - 1 else |order|
  {
    if order == [] then [] else if order[0] == b then order[1..] else [order[0]] + Remove(order[1..], b)
  }

  /** The part of brelse that runs under bcache.lock. */
  function Put(c: Cache, b: BufId): (r: Cache)
    requires c.bufs[b].refcnt > 0 && b in c.order
  {
    var n := c.bufs[b].refcnt - 1;
    var c' := SetBuf(c, b, c.bufs[b].(refcnt := n));
    if n == 0 then c'.(order := [b] + Remove(c.order, b)) else c'
  }

  /** binit: buffers are pushed one after the other at the front of the list. */
  function Init(): (r: CacheData)
    ensures |r.order| == NBUF && |r.bufs| == NBUF
  {
    Cache(seq(NBUF, i requires 0 <= i < NBUF => (NBUF - 1 - i) as BufId), seq(NBUF, _ => Buf(false, 0, 0, false, 0,
        ZERO)))
  }

  // ----- the list under Put -----

  lemma {:induction false} RemoveAt(order: seq<BufId>, k: nat)
    requires k < |order| && Distinct(order)
    ensures Remove(order, order[k]) == order[..k] + order[k + 1..]
  {
    if k > 0 {
      var tail := order[1..];
      assert Distinct(tail);
      RemoveAt(tail, k - 1);
      assert tail[k - 1] == order[k] != order[0];
      assert order[..k] == [order[0]] + tail[..k - 1];
      assert order[k + 1..] == tail[k..];
      Regroup([order[0]], tail[..k - 1], tail[k..]);
    }
  }

  /** n distinct numbers below n are all the numbers below n. */
  lemma Pigeonhole(s: seq<nat>, n: nat, b: nat)
    requires Distinct(s) && |s| == n && b < n && forall i :: 0 <= i < n ==> s[i] < n
    ensures b in s
  {
    if b !in s {
      SeqSet(s);
      SubsetSize((set x | x in s), Below(n) - {b});
      assert false;
    }
  }

  /** Every buffer is on the list. */
  lemma Position(order: seq<BufId>, b: BufId) returns (k: nat)
    requires IsOrder(order)
    ensures k < NBUF && order[k] == b
  {
    var n: nat := |order|;
    Pigeonhole(order, n, b);
    k :| k < NBUF && order[k] == b;
  }

  lemma {:induction false} SeqSet<T>(s: seq<T>)
    requires Distinct(s)
    ensures |set x | x in s| == |s|
  {
    if s != [] {
      SeqSet(s[1..]);
      assert (set x | x in s) == (set x | x in s[1..]) + {s[0]};
    } else {
      assert (set x | x in s) == {};
    }
  }

  /** The last release of a buffer moves it to the front, and the others stay in their order. */
  lemma PutOrder(c: Cache, b: BufId, k: nat)
    requires Shape(c) && c.bufs[b].refcnt > 0 && k < |c.order| && c.order[k] == b
    ensures Shape(Put(c, b))
    ensures Put(c, b).order == if c.bufs[b].refcnt == 1 then [b] + (c.order[..k] + c.order[k + 1..]) else c.order
  {
    RemoveAt(c.order, k);
    var rest := c.order[..k] + c.order[k + 1..];
    forall i | 0 <= i < |rest| ensures rest[i] == c.order[if i < k then i else i + 1] {}
  }

  // ----- whole runs -----

  /** What a run does to the cache. Update stands for every step that changes
      neither identity, reference count nor list position: locking, reading the
      block in, modifying the data, unlocking. */
  datatype Op =
    | Bget(dev: nat, blockno: nat)
    | Brelse(b: BufId)
    | Bpin(b: BufId)
    | Bunpin(b: BufId)
    | Update(b: BufId, valid: bool, locked: bool, data: Block)

  predicate CanDo(c: Cache, op: Op)
  {
    match op
    case Bget(dev, blockno) => dev != 0 && Choose(c, dev, blockno).Some?
    case Brelse(b) => c.bufs[b].refcnt > 0 && b in c.order
    case Bpin(b) => true
    case Bunpin(b) => c.bufs[b].refcnt > 0
    case Update(b, _, _, _) => true
  }

  function Do(c: Cache, op: Op): (r: Cache)
    requires CanDo(c, op)
  {
    match op
    case Bget(dev, blockno) => Get(c, dev, blockno)
    case Brelse(b) => Put(c, b)
    case Bpin(b) => SetBuf(c, b, c.bufs[b].(refcnt := c.bufs[b].refcnt + 1))
    case Bunpin(b) => SetBuf(c, b, c.bufs[b].(refcnt := c.bufs[b].refcnt - 1))
    case Update(b, v, l, d) => SetBuf(c, b, c.bufs[b].(valid := v, locked := l, data := d))
  }

  /** cs is the sequence of caches that a run of ops passes through after binit. */
  ghost predicate IsRun(ops: seq<Op>, cs: seq<Cache>) {
    && |cs| == |ops| + 1
    && cs[0] == Init()
    && forall i :: 0 <= i < |ops| ==> CanDo(cs[i], ops[i]) && cs[i + 1] == Do(cs[i], ops[i])
  }

  /** Whether op moves its buffer to the front of the list. */
  ghost predicate MovesToFront(c: Cache, op: Op) {
    op.Brelse? && c.bufs[op.b].refcnt == 1
  }

  /** When each buffer last moved to the front: binit pushes buffer b at time b,
      and the run's i-th operation happens at time NBUF + i. */
  ghost function LastFront(ops: seq<Op>, cs: seq<Cache>): (t: seq<nat>)
    requires |cs| == |ops| + 1
    ensures |t| == NBUF && forall b :: 0 <= b < NBUF ==> t[b] < NBUF + |ops|
    decreases |ops|
  {
    if ops == [] then seq(NBUF, b requires 0 <= b < NBUF => b)
    else
      var n := |ops| - 1;
      var t := LastFront(ops[..n], cs[..n + 1]);
      if MovesToFront(cs[n], ops[n]) then t[ops[n].b := NBUF + n] else t
  }

  /** The list is ordered by the times t, latest first. */
  ghost predicate Descending(order: seq<BufId>, t: seq<nat>)
    requires |t| == NBUF
  {
    forall i, j :: 0 <= i < j < |order| ==> t[order[i]] > t[order[j]]
  }

  lemma DoShape(c: Cache, op: Op)
    requires Shape(c) && CanDo(c, op)
    ensures Shape(Do(c, op))
  {
    if op.Brelse? {
      var k := Position(c.order, op.b);
      PutOrder(c, op.b, k);
    }
  }

  lemma DoUnique(c: Cache, op: Op)
    requires Shape(c) && Unique(c) && CanDo(c, op)
    ensures Unique(Do(c, op))
  {
    if op.Bget? && FirstMatch(c, op.dev, op.blockno, 0) == NBUF { MissHeldNowhere(c, op.dev, op.blockno); }
  }

  /** After a miss no buffer holds the block. */
  lemma MissHeldNowhere(c: Cache, dev: nat, blockno: nat)
    requires Shape(c) && FirstMatch(c, dev, blockno, 0) == NBUF
    ensures forall i: BufId :: !Holds(c.bufs[i], dev, blockno)
  {
    forall i: BufId ensures !Holds(c.bufs[i], dev, blockno) {
      var k := Position(c.order, i);
    }
  }

  /** Over every run of the cache the list stays a permutation of all buffers and
      no block of a real device gets a second buffer. */
  lemma {:induction false} EveryRunKeepsCache(ops: seq<Op>, cs: seq<Cache>, i: nat)
    requires IsRun(ops, cs) && i <= |ops|
    ensures Shape(cs[i]) && Unique(cs[i])
  {
    if i > 0 {
      EveryRunKeepsCache(ops, cs, i - 1);
      DoShape(cs[i - 1], ops[i - 1]);
      DoUnique(cs[i - 1], ops[i - 1]);
    }
  }

  lemma {:induction false} RunPrefix(ops: seq<Op>, cs: seq<Cache>)
    requires IsRun(ops, cs) && ops != []
    ensures IsRun(ops[..|ops| - 1], cs[..|cs| - 1])
  {
    var n := |ops| - 1;
    forall i | 0 <= i < n
      ensures CanDo(cs[..n + 1][i], ops[..n][i])
      ensures cs[..n + 1][i + 1] == Do(cs[..n + 1][i], ops[..n][i])
    {
      assert cs[..n + 1][i] == cs[i] && ops[..n][i] == ops[i] && cs[..n + 1][i + 1] == cs[i + 1];
    }
  }

  /** The list is in order of last release over every run. */
  lemma {:induction false} EveryRunByRecency(ops: seq<Op>, cs: seq<Cache>)
    requires IsRun(ops, cs)
    ensures Descending(cs[|ops|].order, LastFront(ops, cs))
    decreases |ops|
  {
    if ops != [] {
      var n := |ops| - 1;
      RunPrefix(ops, cs);
      EveryRunByRecency(ops[..n], cs[..n + 1]);
      assert cs[..n + 1][n] == cs[n];
      EveryRunKeepsCache(ops, cs, n);
      if MovesToFront(cs[n], ops[n]) {
        var k := Position(cs[n].order, ops[n].b);
        RemoveAt(cs[n].order, k);
        ReleasedDescends(cs[n].order, k, LastFront(ops[..n], cs[..n + 1]), NBUF + n);
      }
    }
  }

  lemma ReleasedDescends(order: seq<BufId>, k: nat, t: seq<nat>, now: nat)
    requires IsOrder(order) && k < NBUF && |t| == NBUF
    requires Descending(order, t) && forall b :: 0 <= b < NBUF ==> t[b] < now
    ensures Descending([order[k]] + (order[..k] + order[k + 1..]), t[order[k] := now])
  {
    var r := [order[k]] + (order[..k] + order[k + 1..]);
    forall j | 0 < j < |r| ensures r[j] == order[if j <= k then j - 1 else j] {}
  }

  lemma VictimIsLast(c: Cache, dev: nat, blockno: nat, b: BufId, other: BufId) returns (k: nat)
    requires Shape(c) && Choose(c, dev, blockno) == Some(b)
    requires forall i: BufId :: !Holds(c.bufs[i], dev, blockno)
    requires other != b && c.bufs[other].refcnt == 0
    ensures c.bufs[b].refcnt == 0
    ensures k < LastUnused(c, NBUF) && c.order[k] == other && c.order[LastUnused(c, NBUF)] == b
  {
    k := Position(c.order, other);
  }

  /** Over every run, a miss recycles an unreferenced buffer, and of those the one
      moved to the front of the list longest ago. */
  lemma RecyclesLeastRecentlyReleased(ops: seq<Op>, cs: seq<Cache>, dev: nat, blockno: nat, b: BufId, other: BufId)
    requires IsRun(ops, cs)
    requires Choose(cs[|ops|], dev, blockno) == Some(b)
    requires forall i: BufId :: !Holds(cs[|ops|].bufs[i], dev, blockno)
    requires other != b && cs[|ops|].bufs[other].refcnt == 0
    ensures cs[|ops|].bufs[b].refcnt == 0
    ensures LastFront(ops, cs)[b] < LastFront(ops, cs)[other]
  {
    EveryRunKeepsCache(ops, cs, |ops|);
    EveryRunByRecency(ops, cs);
    var k := VictimIsLast(cs[|ops|], dev, blockno, b, other);
  }
}
