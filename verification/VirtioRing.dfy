/** The split virtqueue of kernel/virtio_disk.c: descriptors, chains and the history
    of requests (sections 2.6 and 5.2 of Virtio 1.1). */
module VirtioRing {
  import opened Common

  const NUM: nat := 8
  const WRAP: nat := 0x1_0000  // ring indices are 16 bits wide
  const F_NEXT: nat := 1
  const F_WRITE: nat := 2

  /** What a descriptor's address field points to. */
  datatype Addr = Null | OpHeader(i: nat) | BufData(b: nat) | StatusByte(i: nat)

  datatype Desc = Desc(addr: Addr, flags: nat, next: nat)

  datatype Op = Op(write: bool, sector: nat)

  /** A request: its buffer and its three descriptors. */
  datatype Req = Req(buf: nat, sector: nat, write: bool, head: nat, data: nat, tail: nat)

  predicate HasNext(flags: nat) { flags % 2 == 1 }

  /** The descriptor has VIRTQ_DESC_F_WRITE: the device may write the buffer, and not read it. */
  predicate DeviceWrites(d: Desc) { (d.flags / 2) % 2 == 1 }

  /** Everything the driver and the device share. */
  datatype Queue = Queue(
    free: seq<bool>, desc: seq<Desc>, ops: seq<Op>,
    availRing: seq<nat>, availIdx: nat,
    usedRing: seq<nat>, usedIdx: nat,
    infoBuf: seq<Option<nat>>, infoStatus: seq<nat>,
    usedSeen: nat,     // the driver's place in the used ring
    devIdx: nat,       // the device's place in the available ring
    busy: set<nat>)    // the buffers whose disk flag is set

  predicate Shape(q: Queue) {
    && |q.free| == |q.desc| == |q.ops| == |q.availRing| == |q.usedRing| == |q.infoBuf| == |q.infoStatus| == NUM
  }

  /** What has happened: all requests in order of submission, how many the device has
      taken, which ones it has completed, in order, how many completions the driver
      has seen, and which requests are finished with. */
  datatype History = History(subs: seq<Req>, taken: nat, comps: seq<nat>, seen: nat, finished: set<nat>)

  predicate Live(h: History, k: nat) { k < |h.subs| && k !in h.finished }

  predicate Uses(r: Req, i: nat) { i == r.head || i == r.data || i == r.tail }

  predicate Disjoint(a: Req, b: Req) {
    !Uses(a, b.head) && !Uses(a, b.data) && !Uses(a, b.tail)
  }

  /** The chain of a request, as the device reads it. */
  predicate Formatted(q: Queue, r: Req)
    requires Shape(q)
  {
    && r.head < NUM && r.data < NUM && r.tail < NUM && r.head != r.data && r.data != r.tail && r.head != r.tail
    && q.desc[r.head] == Desc(OpHeader(r.head), F_NEXT, r.data)
    && q.desc[r.data] == Desc(BufData(r.buf), if r.write then F_NEXT else F_WRITE + F_NEXT, r.tail)
    && q.desc[r.tail] == Desc(StatusByte(r.head), F_WRITE, 0)
    && q.ops[r.head] == Op(r.write, r.sector)
  }

  ghost predicate ReqOk(q: Queue, h: History, k: nat)
    requires Shape(q) && k < |h.subs| && h.seen <= |h.comps|
  {
    var r := h.subs[k];
    && Formatted(q, r) && !q.free[r.head] && !q.free[r.data] && !q.free[r.tail]
    && q.infoBuf[r.head] == Some(r.buf)
    && q.infoStatus[r.head] == (if k in h.comps then 0 else 0xff)
    && (r.buf in q.busy <==> k !in h.comps[..h.seen])
  }

  ghost predicate Counts(q: Queue, h: History) {
    && h.taken <= |h.subs| && h.seen <= |h.comps|
    && q.availIdx == |h.subs| % WRAP && q.usedIdx == |h.comps| % WRAP && q.usedSeen == h.seen % WRAP
    && q.devIdx == h.taken % WRAP
  }

  ghost predicate CompOk(h: History, j: nat)
    requires j < |h.comps|
  {
    h.comps[j] < h.taken && h.comps[j] < |h.subs|
  }

  ghost predicate HistoryOk(q: Queue, h: History) {
    && Shape(q) && Counts(q, h) && Distinct(h.comps)
    && (forall j: nat :: j < |h.comps| ==> CompOk(h, j))
    && (forall k :: k in h.finished ==> k in h.comps[..h.seen])
  }

  ghost predicate RingsOk(q: Queue, h: History)
    requires HistoryOk(q, h)
  {
    && (forall k: nat :: h.taken <= k < |h.subs| ==> AvailAt(q, h, k))
    && (forall j: nat :: h.seen <= j < |h.comps| ==> UsedAt(q, h, j))
  }

  ghost predicate AvailAt(q: Queue, h: History, k: nat)
    requires Shape(q) && k < |h.subs|
  {
    q.availRing[k % NUM] == h.subs[k].head
  }

  ghost predicate UsedAt(q: Queue, h: History, j: nat)
    requires Shape(q) && j < |h.comps| && CompOk(h, j)
  {
    q.usedRing[j % NUM] == h.subs[h.comps[j]].head
  }

  ghost predicate Apart(h: History, j: nat, k: nat)
    requires j < |h.subs| && k < |h.subs|
  {
    Disjoint(h.subs[j], h.subs[k]) && h.subs[j].buf != h.subs[k].buf
  }

  ghost predicate Reqs(q: Queue, h: History)
    requires Shape(q) && h.seen <= |h.comps|
  {
    forall k: nat :: Live(h, k) ==> ReqOk(q, h, k)
  }

  ghost predicate Separate(h: History) {
    forall j: nat, k: nat :: Live(h, j) && Live(h, k) && j != k ==> Apart(h, j, k)
  }

  ghost predicate InChain(h: History, i: nat) {
    exists k: nat :: Live(h, k) && Uses(h.subs[k], i)
  }

  /** A descriptor outside every chain is free, and cleared. */
  ghost predicate Spare(q: Queue, h: History)
    requires Shape(q)
  {
    forall i: nat :: i < NUM ==> FreeOk(q, h, i)
  }

  ghost predicate FreeOk(q: Queue, h: History, i: nat)
    requires Shape(q) && i < NUM
  {
    && (q.free[i] || InChain(h, i))
    && (q.free[i] ==> q.desc[i] == Desc(Null, 0, 0))
  }

  /** Every descriptor is free or in the chain of one request that is under way. */
  ghost predicate Valid(q: Queue, h: History) {
    HistoryOk(q, h) && RingsOk(q, h) && Reqs(q, h) && Separate(h) && Spare(q, h)
  }

  // ----- at most two requests are under way -----

  function Chain(r: Req): (res: set<nat>) { {r.head, r.data, r.tail} }

  lemma ChainSize(r: Req)
    requires r.head != r.data && r.data != r.tail && r.head != r.tail
    ensures |Chain(r)| == 3
  {
    assert Chain(r) == {r.head, r.data} + {r.tail};
  }

  lemma ThreeChains(a: Req, b: Req, c: Req)
    requires |Chain(a)| == |Chain(b)| == |Chain(c)| == 3
    requires Disjoint(a, b) && Disjoint(a, c) && Disjoint(b, c)
    ensures !(Chain(a) + Chain(b) + Chain(c) <= Below(NUM))
  {
    assert Chain(a) !! Chain(b);
    assert Chain(a) + Chain(b) !! Chain(c);
    if Chain(a) + Chain(b) + Chain(c) <= Below(NUM) {
      SubsetSize(Chain(a) + Chain(b) + Chain(c), Below(NUM));
    }
  }

  lemma LiveChain(q: Queue, h: History, k: nat)
    requires Valid(q, h) && Live(h, k)
    ensures |Chain(h.subs[k])| == 3 && Chain(h.subs[k]) <= Below(NUM)
  {
    assert ReqOk(q, h, k);
    ChainSize(h.subs[k]);
  }

  /** Eight descriptors hold no more than two chains of three. */
  lemma NotThree(q: Queue, h: History, i: nat, j: nat, k: nat)
    requires Valid(q, h) && i != j && i != k && j != k && Live(h, i) && Live(h, j)
    ensures !Live(h, k)
  {
    if Live(h, k) {
      LiveChain(q, h, i);
      LiveChain(q, h, j);
      LiveChain(q, h, k);
      assert Apart(h, i, j) && Apart(h, i, k) && Apart(h, j, k);
      ThreeChains(h.subs[i], h.subs[j], h.subs[k]);
    }
  }
}
