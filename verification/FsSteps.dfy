/** How each single change to the disk or to an in-memory inode affects ownership
    and the bytes of every file. */
module FsSteps {
  import opened Blocks
  import opened FsDisk
  import opened FsOwn

  ghost predicate InData(sb: Super, d: Fs) {
    Sized(sb, d) && forall i: nat, k: nat :: i < sb.ninodes && k < NSLOT ==> AddrInData(sb, d, i, k)
  }

  lemma OwnInData(sb: Super, d: Fs, owner: map<nat, Slot>, extra: set<nat>)
    requires Own(sb, d, owner, extra, sb.ninodes)
    ensures InData(sb, d)
  {
    forall i: nat, k: nat | i < sb.ninodes && k < NSLOT ensures AddrInData(sb, d, i, k) {
      assert SlotOk(sb, d, owner, i, k);
    }
  }

  /** With the same block numbers everywhere, only the marks matter. */
  lemma OwnFrame(sb: Super, d: Fs, d': Fs, owner: map<nat, Slot>, extra: set<nat>, extra': set<nat>, skip: nat)
    requires Own(sb, d, owner, extra, skip) && Sized(sb, d')
    requires forall i: nat, k: nat :: i < sb.ninodes && k < NSLOT ==> AddrAt(sb, d', i, k) == AddrAt(sb, d, i, k)
    requires forall b: nat :: b < sb.size ==> MarkOk(sb, d', owner, extra', b)
    requires forall b :: b in extra' ==> b < sb.size
    ensures Own(sb, d', owner, extra', skip)
  {
    forall i: nat, k: nat | i < sb.ninodes && i != skip && k < NSLOT ensures SlotOk(sb, d', owner, i, k) {
      assert SlotOk(sb, d, owner, i, k);
    }
    forall b: nat ensures OwnerOk(sb, d', owner, skip, b) { assert OwnerOk(sb, d, owner, skip, b); }
  }

  // ----- bfree and balloc -----

  lemma FreeOwn(sb: Super, d: Fs, owner: map<nat, Slot>, extra: set<nat>, skip: nat, b: nat)
    requires Own(sb, d, owner, extra, skip) && InData(sb, d) && b in extra
    ensures b < sb.size && Marked(sb, d, b)
    ensures Own(sb, PutMark(sb, d, b, false), owner, extra - {b}, skip)
    ensures SameFiles(sb, d, PutMark(sb, d, b, false))
  {
    var d' := PutMark(sb, d, b, false);
    assert MarkOk(sb, d, owner, extra, b);
    PutMarkFiles(sb, d, b, false);
    forall c: nat | c < sb.size ensures MarkOk(sb, d', owner, extra - {b}, c) {
      assert MarkOk(sb, d, owner, extra, c);
      PutMarkAt(sb, d, b, false, c);
    }
    OwnFrame(sb, d, d', owner, extra, extra - {b}, skip);
  }

  /** Zeroing a block that no inode holds. */
  lemma ZeroFiles(sb: Super, d: Fs, b: nat)
    requires InData(sb, d) && sb.datastart <= b < sb.size
    requires forall i: nat, k: nat :: i < sb.ninodes && k < NSLOT ==> AddrAt(sb, d, i, k) != b
    ensures SameFiles(sb, d, PutBlock(d, b, ZERO))
  {
    var d' := PutBlock(d, b, ZERO);
    forall i: nat, k: nat | i < sb.ninodes && k < NSLOT
      ensures Current(sb, d', i) == Current(sb, d, i) && AddrAt(sb, d', i, k) == AddrAt(sb, d, i, k)
    {
      AddrFrame(sb, d, b, ZERO, i, k);
    }
    forall i: nat | i < sb.ninodes ensures Current(sb, d', i) == Current(sb, d, i) { AddrFrame(sb, d, b, ZERO, i, 0); }
  }

  lemma SameFilesTrans(sb: Super, d: Fs, d1: Fs, d2: Fs)
    requires SameFiles(sb, d, d1) && SameFiles(sb, d1, d2)
    ensures SameFiles(sb, d, d2)
  {
    forall i: nat | i < sb.ninodes ensures Current(sb, d2, i) == Current(sb, d, i) {
      assert Current(sb, d1, i) == Current(sb, d, i);
    }
    forall i: nat, k: nat | i < sb.ninodes && k < NSLOT ensures AddrAt(sb, d2, i, k) == AddrAt(sb, d, i, k) {
      assert AddrAt(sb, d1, i, k) == AddrAt(sb, d, i, k);
    }
    forall i: nat, o: nat | i < sb.ninodes && o < MAXFILE * BSIZE
      ensures ByteAt(sb, d2, i, o) == ByteAt(sb, d, i, o)
    {
      assert ByteAt(sb, d1, i, o) == ByteAt(sb, d, i, o);
    }
  }

  /** An unmarked block is a data block that no inode holds. */
  lemma UnmarkedFree(sb: Super, d: Fs, owner: map<nat, Slot>, b: nat)
    requires Own(sb, d, owner, {}, sb.ninodes) && b < sb.size && !Marked(sb, d, b)
    ensures sb.datastart <= b && b !in owner
    ensures forall i: nat, k: nat :: i < sb.ninodes && k < NSLOT ==> AddrAt(sb, d, i, k) != b
  {
    assert MarkOk(sb, d, owner, {}, b);
    forall i: nat, k: nat | i < sb.ninodes && k < NSLOT ensures AddrAt(sb, d, i, k) != b {
      assert SlotOk(sb, d, owner, i, k);
    }
  }

  lemma AllocOwn(sb: Super, d: Fs, owner: map<nat, Slot>, b: nat)
    requires Own(sb, d, owner, {}, sb.ninodes) && b < sb.size && !Marked(sb, d, b)
    ensures sb.datastart <= b && b !in owner
    ensures Own(sb, Allocated(sb, d, b), owner, {b}, sb.ninodes)
    ensures SameFiles(sb, d, Allocated(sb, d, b)) && Allocated(sb, d, b).cached == d.cached
    ensures Allocated(sb, d, b).blocks[b] == ZERO
  {
    var d1, d2 := PutMark(sb, d, b, true), Allocated(sb, d, b);
    UnmarkedFree(sb, d, owner, b);
    OwnInData(sb, d, owner, {});
    PutMarkFiles(sb, d, b, true);
    forall i: nat, k: nat | i < sb.ninodes && k < NSLOT ensures AddrInData(sb, d1, i, k) && AddrAt(sb, d1, i, k) != b {
      assert AddrInData(sb, d, i, k) && AddrAt(sb, d1, i, k) == AddrAt(sb, d, i, k);
    }
    ZeroFiles(sb, d1, b);
    SameFilesTrans(sb, d, d1, d2);
    forall c: nat | c < sb.size ensures MarkOk(sb, d2, owner, {b}, c) {
      assert MarkOk(sb, d, owner, {}, c);
      PutMarkAt(sb, d, b, true, c);
      MarkFrame(sb, d1, b, ZERO, c);
    }
    OwnFrame(sb, d, d2, owner, {}, {b}, sb.ninodes);
  }

  // ----- bmap -----

  /** All block numbers as before, but slot k of inode i, which was empty, holds b. */
  ghost predicate Linked(sb: Super, d: Fs, d': Fs, i: nat, k: nat, b: nat) {
    && Sized(sb, d) && Sized(sb, d') && i < sb.ninodes && k < NSLOT && AddrAt(sb, d, i, k) == 0
    && (forall j: nat, l: nat :: j < sb.ninodes && l < NSLOT ==>
          AddrAt(sb, d', j, l) == if j == i && l == k then b else AddrAt(sb, d, j, l))
  }

  lemma LinkOwn(sb: Super, d: Fs, d': Fs, owner: map<nat, Slot>, i: nat, k: nat, b: nat)
    requires Own(sb, d, owner, {b}, sb.ninodes) && Linked(sb, d, d', i, k, b) && sb.datastart <= b
    requires forall c: nat :: c < sb.size ==> Marked(sb, d', c) == Marked(sb, d, c)
    ensures Own(sb, d', owner[b := Slot(i, k)], {}, sb.ninodes)
  {
    var own := owner[b := Slot(i, k)];
    assert MarkOk(sb, d, owner, {b}, b);
    forall j: nat, l: nat | j < sb.ninodes && l < NSLOT ensures SlotOk(sb, d', own, j, l) {
      assert SlotOk(sb, d, owner, j, l);
      assert AddrAt(sb, d', j, l) == if j == i && l == k then b else AddrAt(sb, d, j, l);
    }
    forall c: nat ensures OwnerOk(sb, d', own, sb.ninodes, c) { assert OwnerOk(sb, d, owner, sb.ninodes, c); }
    forall c: nat | c < sb.size ensures MarkOk(sb, d', own, {}, c) { assert MarkOk(sb, d, owner, {b}, c); }
  }

  /** Linking a zeroed block changes no byte of any file. */
  lemma LinkBytes(sb: Super, d: Fs, d': Fs, i: nat, k: nat, b: nat)
    requires InData(sb, d) && Linked(sb, d, d', i, k, b) && sb.datastart <= b < sb.size
    requires k == NDIRECT || d'.blocks[b] == ZERO
    requires forall c: nat :: c < sb.size && c != AddrAt(sb, d, i, NDIRECT) ==> d'.blocks[c] == d.blocks[c]
    requires forall j: nat, l: nat ::
      j < sb.ninodes && l < NSLOT && (j != i || l != NDIRECT) && AddrAt(sb, d, j, l) != 0 ==>
        AddrAt(sb, d, j, l) != AddrAt(sb, d, i, NDIRECT)
    ensures forall j: nat, o: nat :: j < sb.ninodes && o < MAXFILE * BSIZE ==>
        ByteAt(sb, d', j, o) == ByteAt(sb, d, j, o)
  {
    forall j: nat, o: nat | j < sb.ninodes && o < MAXFILE * BSIZE ensures ByteAt(sb, d', j, o) == ByteAt(sb, d, j, o) {
      var l := DataSlot(o / BSIZE);
      assert AddrAt(sb, d', j, l) == if j == i && l == k then b else AddrAt(sb, d, j, l);
      assert AddrInData(sb, d, j, l);
    }
  }

  lemma SetAddrLinks(sb: Super, d: Fs, i: nat, k: nat, b: nat)
    requires InData(sb, d) && i < sb.ninodes && i in d.cached && k <= NDIRECT && AddrAt(sb, d, i, k) == 0
    requires sb.datastart <= b < sb.size && d.blocks[b] == ZERO
    ensures Linked(sb, d, SetAddr(d, i, k, b), i, k, b)
  {
    var d' := SetAddr(d, i, k, b);
    forall j: nat, l: nat | j < sb.ninodes && l < NSLOT
      ensures AddrAt(sb, d', j, l) == if j == i && l == k then b else AddrAt(sb, d, j, l)
    {
      if j == i && l > NDIRECT && k == NDIRECT { ZeroWord(l - NDIRECT - 1); }
    }
  }

  lemma SetEntryLinks(sb: Super, d: Fs, owner: map<nat, Slot>, extra: set<nat>, i: nat, e: nat, b: nat)
    requires Own(sb, d, owner, extra, sb.ninodes) && i < sb.ninodes && e < NINDIRECT && b < sb.size
    requires AddrAt(sb, d, i, NDIRECT) != 0 && AddrAt(sb, d, i, NDIRECT + 1 + e) == 0
    ensures AddrAt(sb, d, i, NDIRECT) < sb.size
    ensures Linked(sb, d, SetEntry(d, AddrAt(sb, d, i, NDIRECT), e, b), i, NDIRECT + 1 + e, b)
  {
    var a := AddrAt(sb, d, i, NDIRECT);
    assert SlotOk(sb, d, owner, i, NDIRECT);
    var x := PutWord(d.blocks[a], e, b);
    var d' := SetEntry(d, a, e, b);
    forall j: nat, l: nat | j < sb.ninodes && l < NSLOT
      ensures AddrAt(sb, d', j, l) == if j == i && l == NDIRECT + 1 + e then b else AddrAt(sb, d, j, l)
    {
      assert SlotOk(sb, d, owner, j, NDIRECT);
      if j != i || l <= NDIRECT {
        AddrFrame(sb, d, a, x, j, l);
      } else {
        AddrFrame(sb, d, a, x, i, NDIRECT);
        GetPut(d.blocks[a], e, b, l - NDIRECT - 1);
      }
    }
  }

  // ----- data, inode updates -----

  /** Writing a data block of a file changes just those bytes of that file. */
  lemma DataWrite(sb: Super, d: Fs, owner: map<nat, Slot>, i: nat, bn: nat, x: Block)
    requires Own(sb, d, owner, {}, sb.ninodes) && i < sb.ninodes && bn < MAXFILE && AddrAt(sb, d, i, DataSlot(bn)) != 0
    ensures var a := AddrAt(sb, d, i, DataSlot(bn));
      && sb.datastart <= a < sb.size && Own(sb, PutBlock(d, a, x), owner, {}, sb.ninodes)
      && (forall j: nat, k: nat :: j < sb.ninodes && k < NSLOT ==>
            AddrAt(sb, PutBlock(d, a, x), j, k) == AddrAt(sb, d, j, k))
      && (forall j: nat, o: nat :: j < sb.ninodes && o < MAXFILE * BSIZE ==>
            ByteAt(sb, PutBlock(d, a, x), j, o) == if j == i && o / BSIZE == bn then x[o % BSIZE]
                else ByteAt(sb, d, j, o))
  {
    var a := AddrAt(sb, d, i, DataSlot(bn));
    assert SlotOk(sb, d, owner, i, DataSlot(bn));
    var d' := PutBlock(d, a, x);
    forall j: nat, k: nat | j < sb.ninodes && k < NSLOT ensures AddrAt(sb, d', j, k) == AddrAt(sb, d, j, k) {
      assert SlotOk(sb, d, owner, j, NDIRECT);
      AddrFrame(sb, d, a, x, j, k);
    }
    forall c: nat | c < sb.size ensures MarkOk(sb, d', owner, {}, c) {
      assert MarkOk(sb, d, owner, {}, c);
      MarkFrame(sb, d, a, x, c);
    }
    OwnFrame(sb, d, d', owner, {}, {}, sb.ninodes);
    forall j: nat, o: nat | j < sb.ninodes && o < MAXFILE * BSIZE
      ensures ByteAt(sb, d', j, o) == if j == i && o / BSIZE == bn then x[o % BSIZE] else ByteAt(sb, d, j, o)
    {
      assert SlotOk(sb, d, owner, j, DataSlot(o / BSIZE));
    }
  }

  /** iupdate makes the disk agree with memory about inode i and nothing else. */
  lemma UpdateFiles(sb: Super, d: Fs, i: nat)
    requires InData(sb, d) && i < sb.ninodes && i in d.cached
    ensures SameFiles(sb, d, Updated(sb, d, i))
    ensures forall j: nat :: j < sb.ninodes ==>
              OnDisk(sb, Updated(sb, d, i), j) == if j == i then d.cached[i] else OnDisk(sb, d, j)
    ensures forall b: nat :: b < sb.size ==> Marked(sb, Updated(sb, d, i), b) == Marked(sb, d, b)
  {
    var d' := Updated(sb, d, i);
    var m := InodeBlock(sb, i);
    forall j: nat | j < sb.ninodes ensures OnDisk(sb, d', j) == if j == i then d.cached[i] else OnDisk(sb, d, j) {
      if j / IPB == i / IPB { InodeRoundTrip(d.blocks[m], i, d.cached[i], j); }
    }
    forall j: nat, k: nat | j < sb.ninodes && k < NSLOT
      ensures Current(sb, d', j) == Current(sb, d, j) && AddrAt(sb, d', j, k) == AddrAt(sb, d, j, k)
    {
      assert AddrInData(sb, d, j, NDIRECT);
    }
    forall j: nat, o: nat | j < sb.ninodes && o < MAXFILE * BSIZE
      ensures ByteAt(sb, d', j, o) == ByteAt(sb, d, j, o)
    {
      assert AddrInData(sb, d, j, DataSlot(o / BSIZE));
    }
    forall j: nat | j < sb.ninodes ensures Current(sb, d', j) == Current(sb, d, j) {
      assert AddrInData(sb, d, j, 0);
    }
  }

  lemma UpdateOwn(sb: Super, d: Fs, owner: map<nat, Slot>, i: nat)
    requires Own(sb, d, owner, {}, sb.ninodes) && i < sb.ninodes && i in d.cached
    ensures Own(sb, Updated(sb, d, i), owner, {}, sb.ninodes)
  {
    var d' := Updated(sb, d, i);
    OwnInData(sb, d, owner, {});
    UpdateFiles(sb, d, i);
    forall b: nat | b < sb.size ensures MarkOk(sb, d', owner, {}, b) {
      assert MarkOk(sb, d, owner, {}, b) && Marked(sb, d', b) == Marked(sb, d, b);
    }
    OwnFrame(sb, d, d', owner, {}, {}, sb.ninodes);
  }

  // ----- truncation -----

  function Owned(owner: map<nat, Slot>, i: nat): (bs: set<nat>) {
    set b | b in owner && owner[b].i == i
  }

  /** All of inode i's blocks become marked blocks without an owner. */
  lemma Disown(sb: Super, d: Fs, owner: map<nat, Slot>, i: nat)
    requires Own(sb, d, owner, {}, sb.ninodes) && i < sb.ninodes
    ensures Own(sb, d, owner - Owned(owner, i), Owned(owner, i), i)
  {
    var bs := Owned(owner, i);
    var own := owner - bs;
    forall j: nat, k: nat | j < sb.ninodes && j != i && k < NSLOT ensures SlotOk(sb, d, own, j, k) {
      assert SlotOk(sb, d, owner, j, k);
    }
    forall b: nat ensures OwnerOk(sb, d, own, i, b) { assert OwnerOk(sb, d, owner, sb.ninodes, b); }
    forall b: nat | b < sb.size ensures MarkOk(sb, d, own, bs, b) {
      assert MarkOk(sb, d, owner, {}, b) && OwnerOk(sb, d, owner, sb.ninodes, b);
    }
    forall b | b in bs ensures b < sb.size { assert OwnerOk(sb, d, owner, sb.ninodes, b); }
  }

  /** An inode without blocks can be counted again. */
  lemma Readmit(sb: Super, d: Fs, owner: map<nat, Slot>, i: nat)
    requires Own(sb, d, owner, {}, i) && i < sb.ninodes
    requires forall k: nat :: k < NSLOT ==> AddrAt(sb, d, i, k) == 0
    ensures Own(sb, d, owner, {}, sb.ninodes)
  {
    forall j: nat, k: nat | j < sb.ninodes && k < NSLOT ensures SlotOk(sb, d, owner, j, k) {
      if j != i { assert SlotOk(sb, d, owner, j, k); } else { assert AddrAt(sb, d, i, k) == 0; }
    }
    forall b: nat ensures OwnerOk(sb, d, owner, sb.ninodes, b) { assert OwnerOk(sb, d, owner, i, b); }
  }

  /** Everything about the files other than i is the same. */
  ghost predicate SameOthers(sb: Super, d: Fs, d': Fs, i: nat) {
    && Sized(sb, d) && Sized(sb, d')
    && (forall j: nat :: j < sb.ninodes && j != i ==> Current(sb, d', j) == Current(sb, d, j))
    && (forall j: nat, k: nat :: j < sb.ninodes && j != i && k < NSLOT ==> AddrAt(sb, d', j, k) == AddrAt(sb, d, j, k))
    && (forall j: nat, o: nat :: j < sb.ninodes && j != i && o < MAXFILE * BSIZE ==>
          ByteAt(sb, d', j, o) == ByteAt(sb, d, j, o))
  }

  lemma SetInodeOthers(sb: Super, d: Fs, i: nat, n: Inode)
    requires Sized(sb, d) && i < sb.ninodes
    ensures SameOthers(sb, d, d.(cached := d.cached[i := n]), i)
    ensures forall b: nat :: b < sb.size ==> Marked(sb, d.(cached := d.cached[i := n]), b) == Marked(sb, d, b)
  {}

  lemma SetInodeOwn(sb: Super, d: Fs, owner: map<nat, Slot>, extra: set<nat>, i: nat, n: Inode)
    requires Own(sb, d, owner, extra, i) && i < sb.ninodes
    ensures Own(sb, d.(cached := d.cached[i := n]), owner, extra, i)
  {
    var d' := d.(cached := d.cached[i := n]);
    SetInodeOthers(sb, d, i, n);
    forall j: nat, k: nat | j < sb.ninodes && j != i && k < NSLOT ensures SlotOk(sb, d', owner, j, k) {
      assert SlotOk(sb, d, owner, j, k) && AddrAt(sb, d', j, k) == AddrAt(sb, d, j, k);
    }
    forall b: nat ensures OwnerOk(sb, d', owner, i, b) { assert OwnerOk(sb, d, owner, i, b); }
    forall b: nat | b < sb.size ensures MarkOk(sb, d', owner, extra, b) {
      assert MarkOk(sb, d, owner, extra, b) && Marked(sb, d', b) == Marked(sb, d, b);
    }
  }

  lemma SameOthersTrans(sb: Super, d: Fs, d1: Fs, d2: Fs, i: nat)
    requires SameOthers(sb, d, d1, i) && SameOthers(sb, d1, d2, i)
    ensures SameOthers(sb, d, d2, i)
  {
    forall j: nat | j < sb.ninodes && j != i ensures Current(sb, d2, j) == Current(sb, d, j) {
      assert Current(sb, d1, j) == Current(sb, d, j);
    }
    forall j: nat, k: nat | j < sb.ninodes && j != i && k < NSLOT ensures AddrAt(sb, d2, j, k) == AddrAt(sb, d, j, k) {
      assert AddrAt(sb, d1, j, k) == AddrAt(sb, d, j, k);
    }
    forall j: nat, o: nat | j < sb.ninodes && j != i && o < MAXFILE * BSIZE
      ensures ByteAt(sb, d2, j, o) == ByteAt(sb, d, j, o)
    {
      assert ByteAt(sb, d1, j, o) == ByteAt(sb, d, j, o);
    }
  }

  lemma SameFilesOthers(sb: Super, d: Fs, d': Fs, i: nat)
    requires SameFiles(sb, d, d')
    ensures SameOthers(sb, d, d', i)
  {}
}
