/** What each step of the driver and of the device does to the virtqueue, and that it
    keeps the queue's invariant. */
module VirtioSteps {
  import opened Common
  import opened VirtioRing

  lemma Slot(n: nat)
    ensures (n % WRAP) % NUM == n % NUM
  {
    var a, b := n / WRAP, n % WRAP;
    assert n == WRAP * a + b;
    assert WRAP * a == NUM * (8192 * a);
    SameSlot(8192 * a, b);
  }

  lemma SameSlot(a: nat, b: nat)
    ensures (NUM * a + b) % NUM == b % NUM
  {}

  lemma NextIdx(n: nat)
    ensures (n % WRAP + 1) % WRAP == (n + 1) % WRAP
  {}

  lemma Near(a: nat, b: nat)
    requires a < b <= a + 2
    ensures a % WRAP != b % WRAP && a % NUM != b % NUM
  {}

  // ----- what is on the rings belongs to requests under way -----

  lemma UntakenLive(q: Queue, h: History, k: nat)
    requires Valid(q, h) && h.taken <= k < |h.subs|
    ensures Live(h, k) && k !in h.comps
  {
    forall j: nat | j < |h.comps|
      ensures h.comps[j] < h.taken
    {
      assert CompOk(h, j);
    }
  }

  lemma FewUntaken(q: Queue, h: History)
    requires Valid(q, h)
    ensures |h.subs| - h.taken <= 2
  {
    var i, j, k := h.taken, h.taken + 1, h.taken + 2;
    if k < |h.subs| {
      UntakenLive(q, h, i);
      UntakenLive(q, h, j);
      UntakenLive(q, h, k);
      NotThree(q, h, i, j, k);
    }
  }

  lemma UnseenLive(q: Queue, h: History, j: nat)
    requires Valid(q, h) && h.seen <= j < |h.comps|
    ensures Live(h, h.comps[j]) && h.comps[j] !in h.comps[..h.seen]
  {
    assert CompOk(h, j);
  }

  lemma FewUnseen(q: Queue, h: History)
    requires Valid(q, h)
    ensures |h.comps| - h.seen <= 2
  {
    var n := h.seen;
    if n + 3 <= |h.comps| {
      UnseenLive(q, h, n);
      UnseenLive(q, h, n + 1);
      UnseenLive(q, h, n + 2);
      NotThree(q, h, h.comps[n], h.comps[n + 1], h.comps[n + 2]);
    }
  }

  // ----- submission -----

  /** The descriptors of a request, written over the table. */
  function Described(desc: seq<Desc>, r: Req): (res: seq<Desc>)
    requires |desc| == NUM && r.head < NUM && r.data < NUM && r.tail < NUM
  {
    desc[r.head := Desc(OpHeader(r.head), F_NEXT, r.data)]
        [r.data := Desc(BufData(r.buf), if r.write then F_NEXT else F_WRITE + F_NEXT, r.tail)]
        [r.tail := Desc(StatusByte(r.head), F_WRITE, 0)]
  }

  function Taken(free: seq<bool>, r: Req): (res: seq<bool>)
    requires |free| == NUM && r.head < NUM && r.data < NUM && r.tail < NUM
  {
    free[r.head := false][r.data := false][r.tail := false]
  }

  ghost predicate CanSubmit(q: Queue, h: History, r: Req)
    requires Shape(q)
  {
    && r.head < NUM && r.data < NUM && r.tail < NUM && r.head != r.data && r.data != r.tail && r.head != r.tail
    && q.free[r.head] && q.free[r.data] && q.free[r.tail]
    && (forall k: nat :: Live(h, k) ==> h.subs[k].buf != r.buf)
  }

  function Posted(q: Queue, r: Req): (res: Queue)
    requires Shape(q) && r.head < NUM && r.data < NUM && r.tail < NUM
  {
    q.(free := Taken(q.free, r), desc := Described(q.desc, r), ops := q.ops[r.head := Op(r.write, r.sector)],
       availRing := q.availRing[q.availIdx % NUM := r.head], availIdx := (q.availIdx + 1) % WRAP,
       infoBuf := q.infoBuf[r.head := Some(r.buf)], infoStatus := q.infoStatus[r.head := 0xff],
       busy := q.busy + {r.buf})
  }

  function Submitted(h: History, r: Req): (res: History) { h.(subs := h.subs + [r]) }

  lemma SubmitHistory(q: Queue, h: History, r: Req)
    requires Valid(q, h) && CanSubmit(q, h, r)
    ensures HistoryOk(Posted(q, r), Submitted(h, r))
    ensures |h.subs| !in h.comps && |h.subs| !in h.finished
  {
    NextIdx(|h.subs|);
    var h' := Submitted(h, r);
    forall j: nat | j < |h.comps|
      ensures CompOk(h', j) && h.comps[j] != |h.subs|
    {
      assert CompOk(h, j);
    }
  }

  lemma SubmitRings(q: Queue, h: History, r: Req)
    requires Valid(q, h) && CanSubmit(q, h, r)
    requires HistoryOk(Posted(q, r), Submitted(h, r))
    ensures RingsOk(Posted(q, r), Submitted(h, r))
  {
    var q', h' := Posted(q, r), Submitted(h, r);
    FewUntaken(q, h);
    Slot(|h.subs|);
    forall k: nat | h'.taken <= k < |h'.subs|
      ensures AvailAt(q', h', k)
    {
      if k < |h.subs| {
        assert AvailAt(q, h, k);
        Near(k, |h.subs|);
      }
    }
    forall j: nat | h'.seen <= j < |h'.comps|
      ensures UsedAt(q', h', j)
    {
      assert CompOk(h, j) && UsedAt(q, h, j);
    }
  }

  lemma SubmitOther(q: Queue, h: History, r: Req, k: nat)
    requires Valid(q, h) && CanSubmit(q, h, r) && Live(h, k)
    ensures ReqOk(Posted(q, r), Submitted(h, r), k)
    ensures Disjoint(h.subs[k], r) && Disjoint(r, h.subs[k]) && h.subs[k].buf != r.buf
  {
    assert ReqOk(q, h, k);
  }

  lemma SubmitNew(q: Queue, h: History, r: Req)
    requires Valid(q, h) && CanSubmit(q, h, r) && |h.subs| !in h.comps
    ensures ReqOk(Posted(q, r), Submitted(h, r), |h.subs|)
  {}

  lemma SubmitReqs(q: Queue, h: History, r: Req)
    requires Valid(q, h) && CanSubmit(q, h, r) && |h.subs| !in h.comps
    ensures Reqs(Posted(q, r), Submitted(h, r)) && Separate(Submitted(h, r))
  {
    var q', h' := Posted(q, r), Submitted(h, r);
    SubmitNew(q, h, r);
    forall k: nat | Live(h', k)
      ensures ReqOk(q', h', k)
    {
      if k < |h.subs| { SubmitOther(q, h, r, k); }
    }
    forall j: nat, k: nat | Live(h', j) && Live(h', k) && j != k
      ensures Apart(h', j, k)
    {
      if j < |h.subs| { SubmitOther(q, h, r, j); }
      if k < |h.subs| { SubmitOther(q, h, r, k); }
      if j < |h.subs| && k < |h.subs| { assert Apart(h, j, k); }
    }
  }

  lemma SubmitSpare(q: Queue, h: History, r: Req)
    requires Valid(q, h) && CanSubmit(q, h, r) && |h.subs| !in h.finished
    ensures Spare(Posted(q, r), Submitted(h, r))
  {
    var q', h' := Posted(q, r), Submitted(h, r);
    assert Live(h', |h.subs|) && h'.subs[|h.subs|] == r;
    forall i: nat | i < NUM
      ensures FreeOk(q', h', i)
    {
      assert FreeOk(q, h, i);
      if !Uses(r, i) && !q.free[i] {
        var k: nat :| Live(h, k) && Uses(h.subs[k], i);
        assert Live(h', k) && h'.subs[k] == h.subs[k];
      }
    }
  }

  /** Submitting a request keeps the invariant: it overwrites no entry that the device has
      yet to read, and no descriptor of another request. */
  lemma SubmitKeeps(q: Queue, h: History, r: Req)
    requires Valid(q, h) && CanSubmit(q, h, r)
    ensures Valid(Posted(q, r), Submitted(h, r))
  {
    SubmitHistory(q, h, r);
    SubmitRings(q, h, r);
    SubmitReqs(q, h, r);
    SubmitSpare(q, h, r);
  }

  // ----- the device takes a request -----

  function DeviceTook(q: Queue): (r: Queue) { q.(devIdx := (q.devIdx + 1) % WRAP) }

  function Took(h: History): (r: History) { h.(taken := h.taken + 1) }

  /** The device finds an entry exactly when one is waiting, and it is the head of the
      oldest request it has not taken. */
  lemma TakeFinds(q: Queue, h: History)
    requires Valid(q, h)
    ensures q.devIdx != q.availIdx <==> h.taken < |h.subs|
    ensures h.taken < |h.subs| ==> q.availRing[q.devIdx % NUM] == h.subs[h.taken].head
  {
    FewUntaken(q, h);
    Slot(h.taken);
    if h.taken < |h.subs| {
      assert AvailAt(q, h, h.taken);
      Near(h.taken, |h.subs|);
    }
  }

  lemma TakeKeeps(q: Queue, h: History)
    requires Valid(q, h) && h.taken < |h.subs|
    ensures Valid(DeviceTook(q), Took(h))
  {
    var q', h' := DeviceTook(q), Took(h);
    NextIdx(h.taken);
    forall j: nat | j < |h'.comps|
      ensures CompOk(h', j)
    {
      assert CompOk(h, j);
    }
    assert HistoryOk(q', h');
    assert RingsOk(q', h') by {
      forall k: nat | h'.taken <= k < |h'.subs|
        ensures AvailAt(q', h', k)
      {
        assert AvailAt(q, h, k);
      }
      forall j: nat | h'.seen <= j < |h'.comps|
        ensures UsedAt(q', h', j)
      {
        assert CompOk(h, j) && UsedAt(q, h, j);
      }
    }
    SameRequests(q, h, q', h');
  }

  /** Requests are unaffected while nothing of theirs is written. */
  lemma SameRequests(q: Queue, h: History, q': Queue, h': History)
    requires Valid(q, h) && Shape(q') && h'.subs == h.subs && h'.finished == h.finished
    requires q'.free == q.free && q'.desc == q.desc && q'.ops == q.ops && q'.infoBuf == q.infoBuf
    requires q'.infoStatus == q.infoStatus && q'.busy == q.busy && h'.comps == h.comps && h'.seen == h.seen
    ensures Reqs(q', h') && Separate(h') && Spare(q', h')
  {
    forall k: nat | Live(h', k)
      ensures ReqOk(q', h', k)
    {
      assert Live(h, k) && ReqOk(q, h, k);
    }
    SameSpare(q, h, q', h');
  }

  lemma SameSpare(q: Queue, h: History, q': Queue, h': History)
    requires Valid(q, h) && Shape(q') && h'.subs == h.subs && h'.finished == h.finished
    requires q'.free == q.free && q'.desc == q.desc
    ensures Separate(h') && Spare(q', h')
  {
    forall j: nat, k: nat | Live(h', j) && Live(h', k) && j != k
      ensures Apart(h', j, k)
    {
      assert Live(h, j) && Live(h, k) && Apart(h, j, k);
    }
    forall i: nat | i < NUM
      ensures FreeOk(q', h', i)
    {
      assert FreeOk(q, h, i);
      if !q.free[i] {
        var k: nat :| Live(h, k) && Uses(h.subs[k], i);
        assert Live(h', k);
      }
    }
  }

  // ----- the device completes a request -----

  predicate Linked(q: Queue, r: Req)
    requires Shape(q)
  {
    && r.head < NUM && r.data < NUM && r.tail < NUM
    && q.desc[r.head].next == r.data && q.desc[r.data].next == r.tail
  }

  /** The device follows the chain from its head, writes the status byte the last
      descriptor points to, and puts the head on the used ring. */
  function DeviceDid(q: Queue, id: nat): (r: Queue)
    requires Shape(q) && id < NUM && q.desc[id].next < NUM && q.desc[q.desc[id].next].next < NUM
  {
    var status := q.desc[q.desc[q.desc[id].next].next].addr;
    q.(infoStatus := if status.StatusByte? && status.i < NUM then q.infoStatus[status.i := 0] else q.infoStatus,
       usedRing := q.usedRing[q.usedIdx % NUM := id], usedIdx := (q.usedIdx + 1) % WRAP)
  }

  function Completed(h: History, k: nat): (r: History) { h.(comps := h.comps + [k]) }

  ghost predicate CanComplete(h: History, k: nat) { k < h.taken && k < |h.subs| && k !in h.comps }

  /** A request that the device has taken and not completed is under way, and its chain
      is as it was submitted. */
  lemma CompleteFollows(q: Queue, h: History, k: nat)
    requires Valid(q, h) && CanComplete(h, k)
    ensures Live(h, k) && ReqOk(q, h, k) && k !in h.comps[..h.seen]
    ensures Linked(q, h.subs[k])
  {
    assert Live(h, k);
    assert ReqOk(q, h, k);
  }

  lemma CompleteHistory(q: Queue, h: History, k: nat)
    requires Valid(q, h) && CanComplete(h, k)
    requires Linked(q, h.subs[k])
    ensures HistoryOk(DeviceDid(q, h.subs[k].head), Completed(h, k))
  {
    var h' := Completed(h, k);
    NextIdx(|h.comps|);
    forall j: nat | j < |h'.comps|
      ensures CompOk(h', j)
    {
      if j < |h.comps| { assert CompOk(h, j); }
    }
    assert h'.comps[..h'.seen] == h.comps[..h.seen];
  }

  lemma CompleteRings(q: Queue, h: History, k: nat)
    requires Valid(q, h) && CanComplete(h, k)
    requires Linked(q, h.subs[k])
    requires HistoryOk(DeviceDid(q, h.subs[k].head), Completed(h, k))
    ensures RingsOk(DeviceDid(q, h.subs[k].head), Completed(h, k))
  {
    var q', h' := DeviceDid(q, h.subs[k].head), Completed(h, k);
    FewUnseen(q, h);
    Slot(|h.comps|);
    forall i: nat | h'.taken <= i < |h'.subs|
      ensures AvailAt(q', h', i)
    {
      assert AvailAt(q, h, i);
    }
    forall j: nat | h'.seen <= j < |h'.comps|
      ensures CompOk(h', j) && UsedAt(q', h', j)
    {
      if j < |h.comps| {
        assert CompOk(h, j) && UsedAt(q, h, j);
        Near(j, |h.comps|);
      }
    }
  }

  lemma CompleteReqs(q: Queue, h: History, k: nat)
    requires Valid(q, h) && CanComplete(h, k) && Live(h, k) && ReqOk(q, h, k)
    ensures Reqs(DeviceDid(q, h.subs[k].head), Completed(h, k))
  {
    var q', h' := DeviceDid(q, h.subs[k].head), Completed(h, k);
    assert h'.comps[..h'.seen] == h.comps[..h.seen];
    forall j: nat | Live(h', j)
      ensures ReqOk(q', h', j)
    {
      assert Live(h, j) && ReqOk(q, h, j);
      if j != k { assert Apart(h, k, j); }
    }
  }

  /** Completing keeps the invariant: the status goes to the request's own byte, and no
      unseen entry of the used ring is overwritten. */
  lemma CompleteKeeps(q: Queue, h: History, k: nat)
    requires Valid(q, h) && CanComplete(h, k)
    requires Linked(q, h.subs[k])
    ensures Valid(DeviceDid(q, h.subs[k].head), Completed(h, k))
  {
    CompleteFollows(q, h, k);
    CompleteHistory(q, h, k);
    CompleteRings(q, h, k);
    CompleteReqs(q, h, k);
    SameSpare(q, h, DeviceDid(q, h.subs[k].head), Completed(h, k));
  }

  // ----- the interrupt handler sees a completion -----

  function Noticed(q: Queue, b: nat): (r: Queue) { q.(busy := q.busy - {b}, usedSeen := (q.usedSeen + 1) % WRAP) }

  /** id is the head of the request whose completion is next to be seen. */
  predicate Announced(q: Queue, h: History, id: nat)
    requires Shape(q) && h.seen < |h.comps|
  {
    && h.comps[h.seen] < |h.subs| && id == h.subs[h.comps[h.seen]].head && id < NUM
    && q.infoStatus[id] == 0 && q.infoBuf[id] == Some(h.subs[h.comps[h.seen]].buf)
    && h.subs[h.comps[h.seen]].buf in q.busy
  }

  function Seen(h: History): (r: History) { h.(seen := h.seen + 1) }

  /** The handler finds an entry exactly when a completion is waiting; its id names the
      buffer of the request that completed, whose status byte is zero. */
  lemma SeenFinds(q: Queue, h: History)
    requires Valid(q, h)
    ensures q.usedSeen != q.usedIdx <==> h.seen < |h.comps|
    ensures h.seen < |h.comps| ==> Announced(q, h, q.usedRing[q.usedSeen % NUM])
  {
    FewUnseen(q, h);
    Slot(h.seen);
    if h.seen < |h.comps| {
      var k := h.comps[h.seen];
      UnseenLive(q, h, h.seen);
      assert CompOk(h, h.seen) && UsedAt(q, h, h.seen) && ReqOk(q, h, k);
      Near(h.seen, |h.comps|);
    }
  }

  lemma SeenKeeps(q: Queue, h: History)
    requires Valid(q, h) && h.seen < |h.comps| && h.comps[h.seen] < |h.subs|
    ensures Valid(Noticed(q, h.subs[h.comps[h.seen]].buf), Seen(h))
  {
    var k := h.comps[h.seen];
    var q', h' := Noticed(q, h.subs[k].buf), Seen(h);
    UnseenLive(q, h, h.seen);
    NextIdx(h.seen);
    assert h'.comps[..h'.seen] == h.comps[..h.seen] + [k];
    assert HistoryOk(q', h') by {
      forall j: nat | j < |h'.comps|
        ensures CompOk(h', j)
      {
        assert CompOk(h, j);
      }
    }
    SeenRings(q, h, q', h');
    SeenReqs(q, h);
    SameSpare(q, h, q', h');
  }

  lemma SeenRings(q: Queue, h: History, q': Queue, h': History)
    requires Valid(q, h) && HistoryOk(q', h') && h' == Seen(h)
    requires q'.availRing == q.availRing && q'.usedRing == q.usedRing
    ensures RingsOk(q', h')
  {
    forall k: nat | h'.taken <= k < |h'.subs|
      ensures AvailAt(q', h', k)
    {
      assert AvailAt(q, h, k);
    }
    forall j: nat | h'.seen <= j < |h'.comps|
      ensures CompOk(h', j) && UsedAt(q', h', j)
    {
      assert CompOk(h, j) && UsedAt(q, h, j);
    }
  }

  lemma SeenReqs(q: Queue, h: History)
    requires Valid(q, h) && h.seen < |h.comps| && Live(h, h.comps[h.seen])
    ensures Reqs(Noticed(q, h.subs[h.comps[h.seen]].buf), Seen(h))
  {
    var k := h.comps[h.seen];
    var q', h' := Noticed(q, h.subs[k].buf), Seen(h);
    assert h'.comps[..h'.seen] == h.comps[..h.seen] + [k];
    forall j: nat | Live(h', j)
      ensures ReqOk(q', h', j)
    {
      assert Live(h, j) && ReqOk(q, h, j);
      if j != k { assert Apart(h, k, j); }
    }
  }

  // ----- the process that submitted the request goes on -----

  function Cleared(desc: seq<Desc>, r: Req): (res: seq<Desc>)
    requires |desc| == NUM && r.head < NUM && r.data < NUM && r.tail < NUM
  {
    desc[r.head := Desc(Null, 0, 0)][r.data := Desc(Null, 0, 0)][r.tail := Desc(Null, 0, 0)]
  }

  function Freed(q: Queue, r: Req): (res: Queue)
    requires Shape(q) && r.head < NUM && r.data < NUM && r.tail < NUM
  {
    q.(free := q.free[r.head := true][r.data := true][r.tail := true], desc := Cleared(q.desc, r),
       infoBuf := q.infoBuf[r.head := None])
  }

  function Finished(h: History, k: nat): (r: History) { h.(finished := h.finished + {k}) }

  lemma FinishReqs(q: Queue, h: History, k: nat)
    requires Valid(q, h) && Live(h, k) && ReqOk(q, h, k)
    ensures Reqs(Freed(q, h.subs[k]), Finished(h, k)) && Separate(Finished(h, k))
  {
    var q', h' := Freed(q, h.subs[k]), Finished(h, k);
    forall j: nat | Live(h', j)
      ensures ReqOk(q', h', j)
    {
      assert Live(h, j) && ReqOk(q, h, j) && Apart(h, k, j);
    }
    forall i: nat, j: nat | Live(h', i) && Live(h', j) && i != j
      ensures Apart(h', i, j)
    {
      assert Live(h, i) && Live(h, j) && Apart(h, i, j);
    }
  }

  lemma FinishSpare(q: Queue, h: History, k: nat)
    requires Valid(q, h) && Live(h, k) && ReqOk(q, h, k)
    ensures Spare(Freed(q, h.subs[k]), Finished(h, k))
  {
    var r := h.subs[k];
    var q', h' := Freed(q, r), Finished(h, k);
    forall i: nat | i < NUM
      ensures FreeOk(q', h', i)
    {
      assert FreeOk(q, h, i);
      if !Uses(r, i) && !q.free[i] {
        var j: nat :| Live(h, j) && Uses(h.subs[j], i);
        assert Live(h', j);
      }
    }
  }

  lemma FinishRings(q: Queue, h: History, k: nat)
    requires Valid(q, h) && Live(h, k) && ReqOk(q, h, k) && k in h.comps[..h.seen]
    ensures HistoryOk(Freed(q, h.subs[k]), Finished(h, k)) && RingsOk(Freed(q, h.subs[k]), Finished(h, k))
  {
    var q', h' := Freed(q, h.subs[k]), Finished(h, k);
    forall j: nat | j < |h'.comps|
      ensures CompOk(h', j)
    {
      assert CompOk(h, j);
    }
    assert HistoryOk(q', h');
    forall i: nat | h'.taken <= i < |h'.subs|
      ensures AvailAt(q', h', i)
    {
      assert AvailAt(q, h, i);
    }
    forall j: nat | h'.seen <= j < |h'.comps|
      ensures CompOk(h', j) && UsedAt(q', h', j)
    {
      assert CompOk(h, j) && UsedAt(q, h, j);
    }
  }

  /** Freeing the chain of a request whose completion has been seen keeps the invariant. */
  lemma FinishKeeps(q: Queue, h: History, k: nat)
    requires Valid(q, h) && Live(h, k) && ReqOk(q, h, k) && k in h.comps[..h.seen]
    ensures Valid(Freed(q, h.subs[k]), Finished(h, k))
  {
    FinishRings(q, h, k);
    FinishReqs(q, h, k);
    FinishSpare(q, h, k);
  }
}
