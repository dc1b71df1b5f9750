/** Truncation frees exactly the blocks the inode owns. */
module FsTrunc {
  import opened FsDisk
  import opened FsOwn
  import opened FsSteps
  import opened FsFiles

  /** itrunc visits the direct slots, then the entries of the indirect block, and
      the indirect block itself last. */
  function SlotAt(n: nat): (k: nat)
    requires n < NSLOT
    ensures k < NSLOT && Turn(k) == n
  {
    if n < NDIRECT then n else if n < NSLOT - 1 then n + 1 else NDIRECT
  }

  function Turn(k: nat): (n: nat) {
    if k < NDIRECT then k else if k == NDIRECT then NSLOT - 1 else k - 1
  }

  /** The blocks of inode i still to be freed after n turns. */
  function Left(owner: map<nat, Slot>, i: nat, n: nat): (bs: set<nat>) {
    set b | b in owner && owner[b].i == i && Turn(owner[b].k) >= n
  }

  lemma LeftStep(sb: Super, d0: Fs, o0: map<nat, Slot>, i: nat, n: nat)
    requires Own(sb, d0, o0, {}, sb.ninodes) && i < sb.ninodes && n < NSLOT
    ensures var a := AddrAt(sb, d0, i, SlotAt(n));
      Left(o0, i, n + 1) == Left(o0, i, n) - {a} && (a != 0 ==> a in Left(o0, i, n))
  {
    var a := AddrAt(sb, d0, i, SlotAt(n));
    assert SlotOk(sb, d0, o0, i, SlotAt(n));
    forall b | b in Left(o0, i, n) && b !in Left(o0, i, n + 1) ensures b == a {
      assert OwnerOk(sb, d0, o0, sb.ninodes, b);
    }
    assert OwnerOk(sb, d0, o0, sb.ninodes, 0);
  }

  /** Without an indirect block there is nothing left after the direct blocks. */
  lemma LeftNone(sb: Super, d0: Fs, o0: map<nat, Slot>, i: nat, n: nat)
    requires Own(sb, d0, o0, {}, sb.ninodes) && i < sb.ninodes
    requires n >= NSLOT || (n >= NDIRECT && AddrAt(sb, d0, i, NDIRECT) == 0)
    ensures Left(o0, i, n) == {}
  {
    forall b | b in o0 && o0[b].i == i ensures Turn(o0[b].k) < n {
      assert OwnerOk(sb, d0, o0, sb.ninodes, b);
    }
  }

  /** The state of a truncation of inode i after n turns. */
  ghost predicate Trunc(sb: Super, d0: Fs, d: Fs, o0: map<nat, Slot>, i: nat, n: nat) {
    && Own(sb, d, o0 - Owned(o0, i), Left(o0, i, n), i) && InData(sb, d) && SameOthers(sb, d0, d, i)
    && d.cached.Keys == d0.cached.Keys
    && (forall b: nat :: b < sb.size && (b < sb.bmapstart || sb.datastart <= b) ==> d.blocks[b] == d0.blocks[b])
  }

  lemma TruncStart(sb: Super, d: Fs, o0: map<nat, Slot>, i: nat)
    requires Own(sb, d, o0, {}, sb.ninodes) && i < sb.ninodes
    ensures Trunc(sb, d, d, o0, i, 0)
  {
    Disown(sb, d, o0, i);
    OwnInData(sb, d, o0, {});
    assert Left(o0, i, 0) == Owned(o0, i);
  }

  /** One bfree. The block is marked, so bfree does not panic. */
  lemma TruncFree(sb: Super, d0: Fs, d: Fs, o0: map<nat, Slot>, i: nat, n: nat)
    requires Own(sb, d0, o0, {}, sb.ninodes) && i < sb.ninodes && n < NSLOT && Trunc(sb, d0, d, o0, i, n)
    requires AddrAt(sb, d0, i, SlotAt(n)) != 0
    ensures var a := AddrAt(sb, d0, i, SlotAt(n));
      && a < sb.size && Marked(sb, d, a) && Trunc(sb, d0, PutMark(sb, d, a, false), o0, i, n + 1)
      && SameFiles(sb, d, PutMark(sb, d, a, false))
  {
    var a := AddrAt(sb, d0, i, SlotAt(n));
    LeftStep(sb, d0, o0, i, n);
    FreeOwn(sb, d, o0 - Owned(o0, i), Left(o0, i, n), i, a);
    var d' := PutMark(sb, d, a, false);
    forall j: nat, k: nat | j < sb.ninodes && k < NSLOT ensures AddrInData(sb, d', j, k) {
      assert AddrInData(sb, d, j, k) && AddrAt(sb, d', j, k) == AddrAt(sb, d, j, k);
    }
    SameFilesOthers(sb, d, d', i);
    SameOthersTrans(sb, d0, d, d', i);
  }

  lemma TruncSkip(sb: Super, d0: Fs, d: Fs, o0: map<nat, Slot>, i: nat, n: nat)
    requires Own(sb, d0, o0, {}, sb.ninodes) && i < sb.ninodes && n < NSLOT && Trunc(sb, d0, d, o0, i, n)
    requires AddrAt(sb, d0, i, SlotAt(n)) == 0
    ensures Trunc(sb, d0, d, o0, i, n + 1)
  {
    LeftStep(sb, d0, o0, i, n);
    assert OwnerOk(sb, d0, o0, sb.ninodes, 0);
    assert Left(o0, i, n + 1) == Left(o0, i, n);
  }

  /** Changing the in-memory inode being truncated. */
  lemma TruncSet(sb: Super, d0: Fs, d: Fs, o0: map<nat, Slot>, i: nat, n: nat, x: Inode)
    requires Trunc(sb, d0, d, o0, i, n) && i < sb.ninodes && i in d.cached
    requires forall k: nat :: k <= NDIRECT ==> x.addrs[k] == d.cached[i].addrs[k] || x.addrs[k] == 0
    ensures Trunc(sb, d0, d.(cached := d.cached[i := x]), o0, i, n)
  {
    var d' := d.(cached := d.cached[i := x]);
    SetInodeOwn(sb, d, o0 - Owned(o0, i), Left(o0, i, n), i, x);
    SetInodeOthers(sb, d, i, x);
    SameOthersTrans(sb, d0, d, d', i);
    forall j: nat, k: nat | j < sb.ninodes && k < NSLOT ensures AddrInData(sb, d', j, k) {
      assert AddrInData(sb, d, j, k) && AddrInData(sb, d, j, NDIRECT);
      if j != i { assert AddrAt(sb, d', j, k) == AddrAt(sb, d, j, k); }
    }
  }

  /** What a truncation amounts to. */
  ghost predicate Truncated(sb: Super, d0: Fs, d: Fs, o0: map<nat, Slot>, i: nat) {
    && SameOthers(sb, d0, d, i) && i < sb.ninodes && i in d0.cached && d.cached.Keys == d0.cached.Keys
    && d.cached[i].size == 0 && (forall k: nat :: k < NSLOT ==> AddrAt(sb, d, i, k) == 0)
    && (forall b: nat :: b < sb.size ==> (Marked(sb, d, b) <==> Marked(sb, d0, b) && b !in Owned(o0, i)))
  }

  lemma TruncEnd(sb: Super, d0: Fs, d: Fs, o0: map<nat, Slot>, i: nat)
    requires FsOk(sb, d0, o0) && Clean(sb, d0, sb.ninodes) && i in d0.cached && i < sb.ninodes
    requires Trunc(sb, d0, d, o0, i, NSLOT) && d.cached[i].size == 0 && d.cached[i].typ != 0
    requires forall k: nat :: k <= NDIRECT ==> d.cached[i].addrs[k] == 0
    ensures FsOk(sb, d, o0 - Owned(o0, i)) && Clean(sb, d, i) && Truncated(sb, d0, d, o0, i)
  {
    var own := o0 - Owned(o0, i);
    LeftNone(sb, d0, o0, i, NSLOT);
    assert forall k: nat :: k < NSLOT ==> AddrAt(sb, d, i, k) == 0;
    Readmit(sb, d, own, i);
    TruncInodes(sb, d0, d, o0, i);
    forall b: nat | b < sb.size ensures Marked(sb, d, b) <==> Marked(sb, d0, b) && b !in Owned(o0, i) {
      assert MarkOk(sb, d, own, {}, b) && MarkOk(sb, d0, o0, {}, b) && OwnerOk(sb, d0, o0, sb.ninodes, b);
    }
  }

  /** The inodes after itrunc: i is empty, and the others are as they were. */
  lemma TruncInodes(sb: Super, d0: Fs, d: Fs, o0: map<nat, Slot>, i: nat)
    requires FsOk(sb, d0, o0) && Clean(sb, d0, sb.ninodes) && i in d0.cached && i < sb.ninodes
    requires Trunc(sb, d0, d, o0, i, NSLOT) && d.cached[i].size == 0 && d.cached[i].typ != 0
    requires forall k: nat :: k < NSLOT ==> AddrAt(sb, d, i, k) == 0
    ensures InodesOk(sb, d) && Clean(sb, d, i)
  {
    forall j: nat | j < sb.ninodes ensures InodeOk(sb, d, j) {
      if j != i {
        assert InodeOk(sb, d0, j) && Current(sb, d, j) == Current(sb, d0, j);
        SameInodeOk(sb, d0, d, j);
      }
    }
    forall j | j in d.cached ensures j < sb.ninodes && d.cached[j].typ != 0 {
      if j != i { assert Current(sb, d, j) == Current(sb, d0, j); }
    }
    forall j | j in d.cached && j < sb.ninodes && j != i ensures d.cached[j] == OnDisk(sb, d, j) {
      assert Current(sb, d, j) == Current(sb, d0, j);
    }
  }

  lemma UpdateTruncated(sb: Super, d0: Fs, d: Fs, o0: map<nat, Slot>, owner: map<nat, Slot>, i: nat)
    requires FsOk(sb, d, owner) && i < sb.ninodes && i in d.cached && Clean(sb, d, i) && Truncated(sb, d0, d, o0, i)
    ensures var d' := Updated(sb, d, i);
      FsOk(sb, d', owner) && Clean(sb, d', sb.ninodes) && Truncated(sb, d0, d', o0, i)
  {
    var d' := Updated(sb, d, i);
    UpdateOk(sb, d, owner, i);
    OwnInData(sb, d, owner, {});
    UpdateFiles(sb, d, i);
    SameFilesOthers(sb, d, d', i);
    SameOthersTrans(sb, d0, d, d', i);
    forall k: nat | k < NSLOT ensures AddrAt(sb, d', i, k) == 0 {
      assert AddrAt(sb, d', i, k) == AddrAt(sb, d, i, k);
    }
    forall b: nat | b < sb.size ensures Marked(sb, d', b) <==> Marked(sb, d0, b) && b !in Owned(o0, i) {
      assert Marked(sb, d', b) == Marked(sb, d, b);
    }
  }

  lemma TruncJump(sb: Super, d0: Fs, d: Fs, o0: map<nat, Slot>, i: nat)
    requires Own(sb, d0, o0, {}, sb.ninodes) && i < sb.ninodes && Trunc(sb, d0, d, o0, i, NDIRECT)
    requires AddrAt(sb, d0, i, NDIRECT) == 0
    ensures Trunc(sb, d0, d, o0, i, NSLOT)
  {
    LeftNone(sb, d0, o0, i, NDIRECT);
    LeftNone(sb, d0, o0, i, NSLOT);
  }

  /** The end of itrunc, once every block is freed. */
  function Emptied(n: Inode): (r: Inode) { n.(addrs := n.addrs[NDIRECT := 0], size := 0) }

  /** Inode i is as in d0 but for its first k block numbers, which are 0. */
  ghost predicate DirectGone(d0: Fs, d: Fs, i: nat, k: nat) {
    && i in d.cached && i in d0.cached && d.cached[i] == d0.cached[i].(addrs := d.cached[i].addrs)
    && forall l: nat :: l <= NDIRECT ==> d.cached[i].addrs[l] == if l < k then 0 else d0.cached[i].addrs[l]
  }

  function WithoutAddr(d: Fs, i: nat, k: nat): (r: Fs)
    requires i in d.cached && k <= NDIRECT
  {
    d.(cached := d.cached[i := d.cached[i].(addrs := d.cached[i].addrs[k := 0])])
  }

  /** One direct block is freed. */
  lemma DirectFreed(sb: Super, d0: Fs, d: Fs, o0: map<nat, Slot>, i: nat, k: nat)
    requires Own(sb, d0, o0, {}, sb.ninodes) && i < sb.ninodes && k < NDIRECT && Trunc(sb, d0, d, o0, i, k)
    requires DirectGone(d0, d, i, k) && d.cached[i].addrs[k] != 0
    ensures var a := d.cached[i].addrs[k];
      && a < sb.size && Marked(sb, d, a)
      && Trunc(sb, d0, WithoutAddr(PutMark(sb, d, a, false), i, k), o0, i, k + 1)
      && DirectGone(d0, WithoutAddr(PutMark(sb, d, a, false), i, k), i, k + 1)
  {
    var a := d.cached[i].addrs[k];
    assert AddrAt(sb, d0, i, SlotAt(k)) == a;
    TruncFree(sb, d0, d, o0, i, k);
    TruncSet(sb, d0, PutMark(sb, d, a, false), o0, i, k + 1, d.cached[i].(addrs := d.cached[i].addrs[k := 0]));
  }

  lemma DirectSkipped(sb: Super, d0: Fs, d: Fs, o0: map<nat, Slot>, i: nat, k: nat)
    requires Own(sb, d0, o0, {}, sb.ninodes) && i < sb.ninodes && k < NDIRECT && Trunc(sb, d0, d, o0, i, k)
    requires DirectGone(d0, d, i, k) && d.cached[i].addrs[k] == 0
    ensures Trunc(sb, d0, d, o0, i, k + 1) && DirectGone(d0, d, i, k + 1)
  {
    assert AddrAt(sb, d0, i, SlotAt(k)) == 0;
    TruncSkip(sb, d0, d, o0, i, k);
  }

  lemma TruncFinish(sb: Super, d0: Fs, d: Fs, d2: Fs, o0: map<nat, Slot>, own: map<nat, Slot>, i: nat)
    requires FsOk(sb, d0, o0) && Clean(sb, d0, sb.ninodes) && i < sb.ninodes
    requires Trunc(sb, d0, d, o0, i, NSLOT) && DirectGone(d0, d, i, NDIRECT) && own == o0 - Owned(o0, i)
    requires Sized(sb, d.(cached := d.cached[i := Emptied(d.cached[i])]))
    requires d2 == Updated(sb, d.(cached := d.cached[i := Emptied(d.cached[i])]), i)
    ensures i in d2.cached && d2.cached[i] == d0.cached[i].(size := 0, addrs := d2.cached[i].addrs)
    ensures FsOk(sb, d2, own) && Clean(sb, d2, sb.ninodes) && Truncated(sb, d0, d2, o0, i)
  {
    var n := Emptied(d.cached[i]);
    TruncSet(sb, d0, d, o0, i, NSLOT, n);
    var d1 := d.(cached := d.cached[i := n]);
    TruncEnd(sb, d0, d1, o0, i);
    UpdateTruncated(sb, d0, d1, o0, own, i);
  }
}
