/** The virtio disk driver (kernel/virtio_disk.c) and the device at the other end of its
    queue. Each method is one section that runs under vdisk_lock, or one step of the
    device; they may be called in any order. */
module VirtioDisk {
  import opened Common
  import opened VirtioRing
  import opened VirtioSteps
  import opened VirtioData

  /** No three of the descriptors are free. */
  predicate TooFew(free: seq<bool>)
    requires |free| == NUM
  {
    forall a: nat, b: nat, c: nat :: a < b < c < NUM ==> !(free[a] && free[b] && free[c])
  }

  class Disk {
    var free: seq<bool>
    var desc: seq<Desc>
    var ops: seq<Op>
    var availRing: seq<nat>
    var availIdx: nat
    var usedRing: seq<nat>
    var usedIdx: nat
    var infoBuf: seq<Option<nat>>
    var infoStatus: seq<nat>
    var usedSeen: nat
    var devIdx: nat
    var busy: set<nat>
    var mem: map<nat, Block>      // b->data of every buffer
    var sectors: map<nat, Block>  // what is on the disk
    ghost var h: History
    ghost var data: Contents      // of each request
    ghost const initial: map<nat, Block>

    ghost function Q(): (r: Queue)
      reads this
    {
      Queue(free, desc, ops, availRing, availIdx, usedRing, usedIdx, infoBuf, infoStatus, usedSeen, devIdx, busy)
    }

    ghost predicate Ok()
      reads this
    {
      Valid(Q(), h) && BuffersOk(h, mem, data) && sectors == Replay(initial, h.subs, h.comps, data)
    }

    constructor (disk: map<nat, Block>)
      ensures Ok() && h == History([], 0, [], 0, {}) && sectors == initial == disk
      ensures forall i: nat :: i < NUM ==> free[i]
    {
      free := seq(NUM, _ => true);
      desc := seq(NUM, _ => Desc(Null, 0, 0));
      ops := seq(NUM, _ => Op(false, 0));
      availRing, availIdx := seq(NUM, _ => 0), 0;
      usedRing, usedIdx := seq(NUM, _ => 0), 0;
      infoBuf := seq(NUM, _ => None);
      infoStatus := seq(NUM, _ => 0);
      usedSeen, devIdx, busy := 0, 0, {};
      mem, sectors, data, initial := map[], disk, map[], disk;
      h := History([], 0, [], 0, {});
      new;
      assert Spare(Q(), h) by {
        forall i: nat | i < NUM
          ensures FreeOk(Q(), h, i)
        {}
      }
    }

    /** alloc_desc: the first free descriptor, no longer free. */
    method AllocDesc() returns (i: int)
      requires |free| == NUM
      modifies this`free
      ensures |free| == NUM && -1 <= i < NUM
      ensures i >= 0 ==> old(free)[i] && free == old(free)[i := false]
      ensures i < 0 ==> free == old(free)
      ensures forall j: nat :: j < NUM && (i < 0 || j < i) ==> !old(free)[j]
    {
      i := 0;
      while i < NUM
        invariant 0 <= i <= NUM && free == old(free)
        invariant forall j: nat :: j < i ==> !free[j]
      {
        if free[i] {
          free := free[i := false];
          return;
        }
        i := i + 1;
      }
      i := -1;
    }

    /** free_desc: its two panics are this precondition. */
    method FreeDesc(i: nat)
      requires |free| == |desc| == NUM && i < NUM && !free[i]
      modifies this`free, this`desc
      ensures free == old(free)[i := true] && desc == old(desc)[i := Desc(Null, 0, 0)]
    {
      desc := desc[i := Desc(Null, 0, 0)];
      free := free[i := true];
    }

    /** free_chain frees exactly the three descriptors of the chain. */
    method FreeChain(first: nat, ghost r: Req)
      requires Shape(Q()) && Formatted(Q(), r) && first == r.head
      requires !free[r.head] && !free[r.data] && !free[r.tail]
      modifies this`free, this`desc
      ensures free == old(free)[r.head := true][r.data := true][r.tail := true]
      ensures desc == Cleared(old(desc), r)
    {
      var i, more := first, true;
      ghost var stage := 0;
      ghost var f0, f1 := free, free[r.head := true];
      ghost var d0, d1 := desc, desc[r.head := Desc(Null, 0, 0)];
      ghost var f2, d2 := f1[r.data := true], d1[r.data := Desc(Null, 0, 0)];
      while more
        invariant 0 <= stage <= 3 && more == (stage < 3) && |free| == |desc| == NUM
        invariant stage == 0 ==> i == r.head && free == f0 && desc == d0
        invariant stage == 1 ==> i == r.data && free == f1 && desc == d1
        invariant stage == 2 ==> i == r.tail && free == f2 && desc == d2
        invariant stage == 3 ==> free == f2[r.tail := true] && desc == d2[r.tail := Desc(Null, 0, 0)]
        decreases 3 - stage
      {
        var flag, nxt := desc[i].flags, desc[i].next;
        FreeDesc(i);
        stage := stage + 1;
        if HasNext(flag) {
          i := nxt;
        } else {
          more := false;
        }
      }
    }

    /** The first n entries of idx are free descriptors of was, in ascending order, and no
        other descriptor up to the last of them was free. */
    static ghost predicate Picked(was: seq<bool>, now: seq<bool>, idx: seq<int>) {
      && |was| == |now| == NUM
      && (forall j: nat :: j < |idx| ==> 0 <= idx[j] < NUM && was[idx[j]])
      && (forall i: nat, j: nat :: i < j < |idx| ==> idx[i] < idx[j])
      && (forall d: nat :: d < NUM && was[d] && d !in idx ==> now[d] && forall j: nat :: j < |idx| ==> idx[j] < d)
      && (forall d: nat :: d < NUM && (!was[d] || d in idx) ==> !now[d])
    }

    static lemma PickNext(was: seq<bool>, now: seq<bool>, idx: seq<int>, i: int)
      requires Picked(was, now, idx) && 0 <= i < NUM && now[i]
      requires forall j: nat :: j < i ==> !now[j]
      ensures Picked(was, now[i := false], idx + [i])
    {
      forall d: nat | d < NUM && was[d] && d !in idx + [i]
        ensures now[i := false][d] && forall j: nat :: j < |idx + [i]| ==> (idx + [i])[j] < d
      {
        assert d !in idx;
      }
    }

    static lemma PickedAll(was: seq<bool>, now: seq<bool>, idx: seq<int>)
      requires Picked(was, now, idx) && |idx| < 3
      requires forall d: nat :: d < NUM ==> !now[d]
      ensures TooFew(was)
    {
      assert forall d: nat :: d < NUM && was[d] ==> d in idx;
    }

    /** alloc3_desc: the first three free descriptors; when there are not three, every
        descriptor is left as it was. */
    method Alloc3Desc(idx: array<int>) returns (ok: bool)
      requires Valid(Q(), h) && idx.Length == 3
      modifies this`free, this`desc, idx
      ensures desc == old(desc)
      ensures ok ==> Picked(old(free), free, idx[..])
      ensures !ok ==> free == old(free) && TooFew(free)
    {
      ghost var was := free;
      ghost var cleared := desc;
      assert forall d: nat :: d < NUM && was[d] ==> cleared[d] == Desc(Null, 0, 0) by {
        forall d: nat | d < NUM && was[d]
          ensures cleared[d] == Desc(Null, 0, 0)
        {
          assert FreeOk(Q(), h, d);
        }
      }
      var i := 0;
      while i < 3
        invariant 0 <= i <= 3 && desc == cleared
        invariant Picked(was, free, idx[..i])
      {
        ghost var before := free;
        var d := AllocDesc();
        idx[i] := d;
        if d < 0 {
          PickedAll(was, free, idx[..i]);
          Restore(idx, i, was);
          return false;
        }
        PickNext(was, before, idx[..i], d);
        assert idx[..i + 1] == idx[..i] + [d];
        i := i + 1;
      }
      assert idx[..] == idx[..3];
      return true;
    }

    /** The inner loop of alloc3_desc: frees the first n entries of idx again. */
    method Restore(idx: array<int>, n: nat, ghost was: seq<bool>)
      requires |free| == |desc| == NUM && n <= idx.Length && Picked(was, free, idx[..n])
      requires forall d: nat :: d < NUM && was[d] ==> desc[d] == Desc(Null, 0, 0)
      modifies this`free, this`desc
      ensures free == was && desc == old(desc)
    {
      ghost var clear, taken := desc, idx[..n];
      var j := 0;
      while j < n
        invariant j <= n && |free| == NUM && desc == clear && idx[..n] == taken
        invariant Picked(was, old(free), taken)
        invariant forall d: nat :: d < NUM ==> free[d] == (was[d] && d !in taken[j..])
      {
        assert taken[j] == idx[j] && taken[j..] == [taken[j]] + taken[j + 1..];
        FreeDesc(idx[j]);
        j := j + 1;
      }
    }

    /** The three descriptors for a request. */
    method AllocThree() returns (ok: bool, i0: nat, i1: nat, i2: nat)
      requires Valid(Q(), h)
      modifies this`free, this`desc
      ensures desc == old(desc)
      ensures ok ==> i0 < i1 < i2 < NUM && old(free)[i0] && old(free)[i1] && old(free)[i2]
                     && free == old(free)[i0 := false][i1 := false][i2 := false]
      ensures !ok ==> free == old(free) && TooFew(free)
    {
      ghost var was := free;
      var idx := new int[3];
      ok := Alloc3Desc(idx);
      i0, i1, i2 := 0, 0, 0;
      if ok {
        PickedThree(was, free, idx[..]);
        i0, i1, i2 := idx[0], idx[1], idx[2];
      }
    }

    static lemma PickedThree(was: seq<bool>, now: seq<bool>, idx: seq<int>)
      requires Picked(was, now, idx) && |idx| == 3
      ensures 0 <= idx[0] < idx[1] < idx[2] < NUM && was[idx[0]] && was[idx[1]] && was[idx[2]]
      ensures now == was[idx[0] := false][idx[1] := false][idx[2] := false]
    {
      assert forall d: nat :: d in idx <==> d == idx[0] || d == idx[1] || d == idx[2];
    }

    /** virtio_disk_rw formats the three descriptors. */
    method Describe(i0: nat, i1: nat, i2: nat, b: nat, sector: nat, write: bool, ghost r: Req)
      requires |ops| == |desc| == NUM && r == Req(b, sector, write, i0, i1, i2) && i0 < NUM && i1 < NUM && i2 < NUM
      modifies this`ops, this`desc
      ensures ops == old(ops)[i0 := Op(write, sector)] && desc == Described(old(desc), r)
    {
      ops := ops[i0 := Op(write, sector)];
      desc := desc[i0 := Desc(OpHeader(i0), F_NEXT, i1)];
      desc := desc[i1 := Desc(BufData(b), (if write then 0 else F_WRITE) + F_NEXT, i2)];
      desc := desc[i2 := Desc(StatusByte(i0), F_WRITE, 0)];
    }

    /** The rest of the submission: the status byte, the buffer, and the available ring. */
    method Post(i0: nat, i1: nat, i2: nat, b: nat, blockno: nat, write: bool, ghost q: Queue, ghost r: Req)
      requires Shape(q) && r == Req(b, blockno * 2, write, i0, i1, i2) && i0 < NUM && i1 < NUM && i2 < NUM
      requires Q() == q.(free := Taken(q.free, r))
      modifies this`ops, this`desc, this`infoStatus, this`busy, this`infoBuf, this`availRing, this`availIdx
      ensures Q() == Posted(q, r)
    {
      Describe(i0, i1, i2, b, blockno * 2, write, r);
      infoStatus := infoStatus[i0 := 0xff];
      busy := busy + {b};
      infoBuf := infoBuf[i0 := Some(b)];
      availRing := availRing[availIdx % NUM := i0];
      availIdx := (availIdx + 1) % WRAP;
    }

    /** The first half of virtio_disk_rw, up to the notification: one pass of the loop that
        looks for descriptors, and the submission when there are three. */
    method Submit(b: nat, blockno: nat, write: bool) returns (ok: bool, head: nat, ghost r: Req)
      requires Ok()
      requires forall k: nat :: Live(h, k) ==> h.subs[k].buf != b  // the caller holds the buffer's lock
      modifies this
      ensures Ok() && mem == old(mem) && sectors == old(sectors)
      ensures ok ==> h == Submitted(old(h), r) && AskedFor(r, b, blockno, write) && head == r.head
      ensures ok && write ==> |old(h).subs| in data && data[|old(h).subs|] == At(mem, b)
      ensures !ok ==> h == old(h) && Q() == old(Q()) && TooFew(free)
    {
      ghost var q := Q();
      var i0, i1, i2;
      ok, i0, i1, i2 := AllocThree();
      head, r := i0, Req(b, blockno * 2, write, i0, i1, i2);
      if ok {
        Enqueue(i0, i1, i2, b, blockno, write, q, r);
      }
    }

    /** Descriptors that have just been allocated become a request. */
    method Enqueue(i0: nat, i1: nat, i2: nat, b: nat, blockno: nat, write: bool, ghost q: Queue, ghost r: Req)
      requires Valid(q, h) && r == Req(b, blockno * 2, write, i0, i1, i2) && CanSubmit(q, h, r)
      requires Q() == q.(free := Taken(q.free, r))
      requires BuffersOk(h, mem, data) && sectors == Replay(initial, h.subs, h.comps, data)
      modifies this`ops, this`desc, this`infoStatus, this`busy, this`infoBuf, this`availRing, this`availIdx, this`h,
          this`data
      ensures Ok() && h == Submitted(old(h), r)
      ensures write ==> |old(h).subs| in data && data[|old(h).subs|] == At(mem, b)
    {
      Post(i0, i1, i2, b, blockno, write, q, r);
      Record(q, r);
    }

    /** The history after a submission. */
    ghost method Record(q: Queue, r: Req)
      requires Valid(q, h) && CanSubmit(q, h, r) && Q() == Posted(q, r)
      requires BuffersOk(h, mem, data) && sectors == Replay(initial, h.subs, h.comps, data)
      modifies this`h, this`data
      ensures Ok() && h == Submitted(old(h), r)
      ensures r.write ==> |old(h).subs| in data && data[|old(h).subs|] == At(mem, r.buf)
    {
      SubmitKeeps(q, h, r);
      SubmitData(q, h, r, mem, data, initial);
      data := if r.write then data[|h.subs| := At(mem, r.buf)] else data;
      h := Submitted(h, r);
    }

    static predicate AskedFor(r: Req, b: nat, blockno: nat, write: bool) {
      r.buf == b && r.sector == blockno * 2 && r.write == write
    }

    /** The device reads the next entry of the available ring, if there is one. */
    method DeviceTake() returns (found: bool, id: nat)
      requires Ok()
      modifies this`devIdx, this`h
      ensures Ok() && found == (old(h).taken < |old(h).subs|)
      ensures found ==> h == Took(old(h)) && id == h.subs[old(h).taken].head
      ensures !found ==> h == old(h)
    {
      ghost var q := Q();
      TakeFinds(q, h);
      found, id := devIdx != availIdx, 0;
      if found {
        id := availRing[devIdx % NUM];
        devIdx := (devIdx + 1) % WRAP;
        assert Q() == DeviceTook(q);
        TakeKeeps(q, h);
        h := Took(h);
      }
    }

    /** The device carries out a request it has taken: it follows the chain of descriptors
        from the head it was given, and moves the block they describe. A read takes what the
        sector holds now; a write puts there what the buffer held when it was submitted. */
    method DeviceComplete(id: nat, ghost k: nat)
      requires Ok() && CanComplete(h, k) && id == h.subs[k].head
      modifies this`infoStatus, this`usedRing, this`usedIdx, this`mem, this`sectors, this`data, this`h
      ensures Ok() && h == Completed(old(h), k)
      ensures Moved(old(h).subs[k], k, old(mem), old(sectors), old(data), mem, sectors, data)
    {
      ghost var q := Q();
      CompleteFollows(q, h, k);
      CompleteKeeps(q, h, k);
      Transfer(id, k);
      Announce(id, h.subs[k]);
      h := Completed(h, k);
    }

    /** The device writes the status byte, in a descriptor that lets it, and the entry of the used ring. */
    method Announce(id: nat, ghost r: Req)
      requires Shape(Q()) && Formatted(Q(), r) && id == r.head
      modifies this`infoStatus, this`usedRing, this`usedIdx
      ensures Q() == DeviceDid(old(Q()), id)
    {
      var third := desc[desc[id].next].next;
      if DeviceWrites(desc[third]) { infoStatus := infoStatus[desc[third].addr.i := 0]; }
      usedRing := usedRing[usedIdx % NUM := id];
      usedIdx := (usedIdx + 1) % WRAP;
    }

    /** The device moves the block: it stores only into a buffer whose descriptor lets it write, and loads only from
        one that does not. */
    method Transfer(id: nat, ghost k: nat)
      requires Ok() && CanComplete(h, k) && Live(h, k) && ReqOk(Q(), h, k) && id == h.subs[k].head
      modifies this`mem, this`sectors, this`data
      ensures BuffersOk(Completed(h, k), mem, data) && sectors == Replay(initial, h.subs, h.comps + [k], data)
      ensures Moved(h.subs[k], k, old(mem), old(sectors), old(data), mem, sectors, data)
    {
      var op := ops[desc[id].addr.i];
      var second := desc[desc[id].next];
      var b := second.addr.b;
      if op.write && !DeviceWrites(second) {
        WriteData(Q(), h, k, mem, data, initial);
        sectors := sectors[op.sector := At(mem, b)];
      } else if !op.write && DeviceWrites(second) {
        ReadData(Q(), h, k, At(sectors, op.sector), mem, data, initial);
        mem := mem[b := At(sectors, op.sector)];
        data := data[k := At(sectors, op.sector)];
      }
    }

    /** The kernel changes a buffer that no request is using. */
    method Touch(b: nat, x: Block)
      requires Ok() && forall k: nat :: Live(h, k) ==> h.subs[k].buf != b
      modifies this`mem
      ensures Ok() && mem == old(mem)[b := x]
    {
      mem := mem[b := x];
    }

    /** One round of the loop in virtio_disk_intr; its panic cannot happen. */
    method IntrOne() returns (found: bool, b: nat)
      requires Ok()
      modifies this`busy, this`usedSeen, this`h
      ensures Ok() && found == (old(h).seen < |old(h).comps|)
      ensures found ==> h == Seen(old(h)) && h.comps[old(h).seen] < |h.subs| && b == h.subs[h.comps[old(h).seen]].buf
      ensures found ==> b in old(busy) && busy == old(busy) - {b}
      ensures !found ==> h == old(h) && busy == old(busy)
    {
      ghost var q := Q();
      SeenFinds(q, h);
      found, b := usedSeen != usedIdx, 0;
      if found {
        var id := usedRing[usedSeen % NUM];
        assert Announced(q, h, id);
        assert infoStatus[id] == 0;  // no panic("virtio_disk_intr status")
        b := infoBuf[id].value;
        busy := busy - {b};
        usedSeen := (usedSeen + 1) % WRAP;
        assert Q() == Noticed(q, b);
        SeenKeeps(q, h);
        h := Seen(h);
      }
    }

    /** virtio_disk_intr, when the device adds nothing meanwhile: every completion so far
        has been seen. */
    method Intr()
      requires Ok()
      modifies this`busy, this`usedSeen, this`h
      ensures Ok() && h == old(h).(seen := |h.comps|)
    {
      var found := true;
      while found
        invariant Ok() && h == old(h).(seen := h.seen) && h.seen <= |h.comps|
        invariant !found ==> h.seen == |h.comps|
        decreases found, |h.comps| - h.seen
      {
        var b;
        found, b := IntrOne();
      }
    }

    /** The second half of virtio_disk_rw, once b->disk has gone back to zero. */
    method Finish(head: nat, ghost k: nat)
      requires Ok() && Live(h, k) && head == h.subs[k].head && h.subs[k].buf !in busy
      modifies this`infoBuf, this`free, this`desc, this`h
      ensures Ok() && h == Finished(old(h), k) && k in h.comps
      ensures k in data && At(mem, h.subs[k].buf) == data[k]  // for a read, what the sector held at the completion
      ensures forall i: nat :: i < NUM ==> free[i] == (old(free)[i] || Uses(h.subs[k], i))
    {
      ghost var q := Q();
      assert ReqOk(q, h, k);
      FinishKeeps(q, h, k);
      FinishData(h, k, mem, data);
      infoBuf := infoBuf[head := None];
      FreeChain(head, h.subs[k]);
      assert Q() == Freed(q, h.subs[k]);
      h := Finished(h, k);
    }
  }
}
