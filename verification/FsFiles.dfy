/** A well-formed file system, and what mapping a new block does to it. */
module FsFiles {
  import opened Common
  import opened Blocks
  import opened FsBits
  import opened FsDisk
  import opened FsOwn
  import opened FsSteps

  /** Every block below the file's size is there, and a free inode has none. */
  ghost predicate InodeOk(sb: Super, d: Fs, i: nat)
    requires Sized(sb, d) && i < sb.ninodes
  {
    var n := Current(sb, d, i);
    && n.size <= MAXFILE * BSIZE
    && (forall bn: nat :: bn < MAXFILE && bn * BSIZE < n.size ==> AddrAt(sb, d, i, DataSlot(bn)) != 0)
    && (n.typ == 0 ==> n.size == 0 && forall k: nat :: k < NSLOT ==> AddrAt(sb, d, i, k) == 0)
  }

  ghost predicate InodesOk(sb: Super, d: Fs) {
    && Sized(sb, d)
    && (forall i :: i in d.cached ==> i < sb.ninodes && d.cached[i].typ != 0)
    && (forall i: nat :: i < sb.ninodes ==> InodeOk(sb, d, i))
  }

  ghost predicate FsOk(sb: Super, d: Fs, owner: map<nat, Slot>) {
    Own(sb, d, owner, {}, sb.ninodes) && InodesOk(sb, d)
  }

  /** In-memory inodes other than but agree with the disk. */
  ghost predicate Clean(sb: Super, d: Fs, but: nat) {
    && Sized(sb, d)
    && forall i :: i in d.cached && i < sb.ninodes && i != but ==> d.cached[i] == OnDisk(sb, d, i)
  }

  /** The bytes of file i. */
  function Content(sb: Super, d: Fs, i: nat): (s: seq<Byte>)
    requires Sized(sb, d) && i < sb.ninodes && Current(sb, d, i).size <= MAXFILE * BSIZE
    ensures |s| == Current(sb, d, i).size
  {
    seq<Byte>(Current(sb, d, i).size, o requires 0 <= o < Current(sb, d, i).size => ByteAt(sb, d, i, o))
  }

  /** Inode i may have gained blocks; no other block number, no other field of an
      inode, and nothing in the inode area of the disk, is different. */
  ghost predicate Grows(sb: Super, d: Fs, d': Fs, i: nat) {
    CachedGrows(sb, d, d', i) && AddrsGrow(sb, d, d', i)
  }

  ghost predicate CachedGrows(sb: Super, d: Fs, d': Fs, i: nat) {
    && Sized(sb, d) && Sized(sb, d') && i < sb.ninodes && i in d.cached && d'.cached.Keys == d.cached.Keys
    && (forall j :: j in d.cached ==> d'.cached[j] == if j == i then d.cached[i].(addrs := d'.cached[i].addrs)
        else d.cached[j])
    && (forall b: nat :: b < sb.bmapstart ==> d'.blocks[b] == d.blocks[b])
  }

  ghost predicate AddrsGrow(sb: Super, d: Fs, d': Fs, i: nat) {
    && Sized(sb, d) && Sized(sb, d')
    && (forall j: nat, k: nat :: j < sb.ninodes && k < NSLOT && (j != i || AddrAt(sb, d, j, k) != 0) ==>
          AddrAt(sb, d', j, k) == AddrAt(sb, d, j, k))
  }

  ghost predicate SameBytes(sb: Super, d: Fs, d': Fs) {
    && Sized(sb, d) && Sized(sb, d')
    && (forall j: nat, o: nat :: j < sb.ninodes && o < MAXFILE * BSIZE ==> ByteAt(sb, d', j, o) == ByteAt(sb, d, j, o))
  }

  ghost predicate Extends(sb: Super, d: Fs, d': Fs, i: nat) {
    Grows(sb, d, d', i) && SameBytes(sb, d, d')
  }

  lemma ExtendsRefl(sb: Super, d: Fs, i: nat)
    requires Sized(sb, d) && i < sb.ninodes && i in d.cached
    ensures Extends(sb, d, d, i)
  {
    assert d.cached[i].(addrs := d.cached[i].addrs) == d.cached[i];
  }

  lemma GrowsTrans(sb: Super, d: Fs, d1: Fs, d2: Fs, i: nat)
    requires Grows(sb, d, d1, i) && Grows(sb, d1, d2, i)
    ensures Grows(sb, d, d2, i)
  {
    forall b: nat | b < sb.bmapstart ensures d2.blocks[b] == d.blocks[b] { assert d1.blocks[b] == d.blocks[b]; }
    forall j: nat, k: nat | j < sb.ninodes && k < NSLOT && (j != i || AddrAt(sb, d, j, k) != 0)
      ensures AddrAt(sb, d2, j, k) == AddrAt(sb, d, j, k)
    {
      assert AddrAt(sb, d1, j, k) == AddrAt(sb, d, j, k);
    }
  }

  lemma ExtendsTrans(sb: Super, d: Fs, d1: Fs, d2: Fs, i: nat)
    requires Extends(sb, d, d1, i) && Extends(sb, d1, d2, i)
    ensures Extends(sb, d, d2, i)
  {
    GrowsTrans(sb, d, d1, d2, i);
    forall j: nat, o: nat | j < sb.ninodes && o < MAXFILE * BSIZE
      ensures ByteAt(sb, d2, j, o) == ByteAt(sb, d, j, o)
    {
      assert ByteAt(sb, d1, j, o) == ByteAt(sb, d, j, o);
    }
  }

  lemma GrowsCurrent(sb: Super, d: Fs, d': Fs, i: nat, j: nat)
    requires Grows(sb, d, d', i) && j < sb.ninodes
    ensures OnDisk(sb, d', j) == OnDisk(sb, d, j)
    ensures Current(sb, d', j) == if j == i then Current(sb, d, i).(addrs := Current(sb, d', i).addrs)
        else Current(sb, d, j)
  {}

  lemma ExtendsOk(sb: Super, d: Fs, d': Fs, owner: map<nat, Slot>, owner': map<nat, Slot>, i: nat)
    requires FsOk(sb, d, owner) && Extends(sb, d, d', i) && Own(sb, d', owner', {}, sb.ninodes)
    ensures FsOk(sb, d', owner')
  {
    forall j: nat | j < sb.ninodes ensures InodeOk(sb, d', j) {
      GrowsCurrent(sb, d, d', i, j);
      assert InodeOk(sb, d, j);
      forall bn: nat | bn < MAXFILE && bn * BSIZE < Current(sb, d', j).size
        ensures AddrAt(sb, d', j, DataSlot(bn)) != 0
      {
        assert AddrAt(sb, d, j, DataSlot(bn)) != 0;
      }
      if Current(sb, d', j).typ == 0 {
        forall k: nat | k < NSLOT ensures AddrAt(sb, d', j, k) == 0 { assert AddrAt(sb, d, j, k) == 0; }
      }
    }
  }

  /** Slot k of inode i, empty before, now holds a newly allocated block. */
  ghost predicate Grown(sb: Super, d: Fs, d': Fs, i: nat, k: nat, b: nat) {
    Extends(sb, d, d', i) && Linked(sb, d, d', i, k, b)
  }

  /** bmap gives the inode a direct block, or its indirect block. */
  lemma GrowDirect(sb: Super, d: Fs, owner: map<nat, Slot>, i: nat, k: nat, b: nat)
    requires FsOk(sb, d, owner) && i in d.cached && k <= NDIRECT && AddrAt(sb, d, i, k) == 0
    requires b < sb.size && !Marked(sb, d, b)
    ensures var d' := SetAddr(Allocated(sb, d, b), i, k, b);
      && Grown(sb, d, d', i, k, b) && FsOk(sb, d', owner[b := Slot(i, k)])
  {
    var d1 := Allocated(sb, d, b);
    var d2 := SetAddr(d1, i, k, b);
    AllocOwn(sb, d, owner, b);
    OwnInData(sb, d1, owner, {b});
    assert AddrAt(sb, d1, i, k) == 0;
    SetAddrLinks(sb, d1, i, k, b);
    LinkOwn(sb, d1, d2, owner, i, k, b);
    DistinctIndirect(sb, d1, owner, {b}, i);
    LinkBytes(sb, d1, d2, i, k, b);
    LinkGrows(sb, d, d1, d2, i, k, b);
    ExtendsOk(sb, d, d2, owner, owner[b := Slot(i, k)], i);
  }

  /** No other slot holds inode i's indirect block. */
  lemma DistinctIndirect(sb: Super, d: Fs, owner: map<nat, Slot>, extra: set<nat>, i: nat)
    requires Own(sb, d, owner, extra, sb.ninodes) && i < sb.ninodes
    ensures forall j: nat, l: nat ::
      j < sb.ninodes && l < NSLOT && (j != i || l != NDIRECT) && AddrAt(sb, d, j, l) != 0 ==>
        AddrAt(sb, d, j, l) != AddrAt(sb, d, i, NDIRECT)
  {
    forall j: nat, l: nat | j < sb.ninodes && l < NSLOT && (j != i || l != NDIRECT) && AddrAt(sb, d, j, l) != 0
      ensures AddrAt(sb, d, j, l) != AddrAt(sb, d, i, NDIRECT)
    {
      assert SlotOk(sb, d, owner, j, l) && SlotOk(sb, d, owner, i, NDIRECT);
    }
  }

  lemma LinkGrows(sb: Super, d: Fs, d1: Fs, d2: Fs, i: nat, k: nat, b: nat)
    requires Sized(sb, d) && i < sb.ninodes && i in d.cached && k < NSLOT && AddrAt(sb, d, i, k) == 0
    requires SameFiles(sb, d, d1) && d1.cached == d.cached && Linked(sb, d1, d2, i, k, b)
    requires d2.cached == d.cached || (k <= NDIRECT && d2 == SetAddr(d1, i, k, b))
    requires forall c: nat :: c < sb.bmapstart ==> d2.blocks[c] == d.blocks[c]
    requires forall j: nat, o: nat :: j < sb.ninodes && o < MAXFILE * BSIZE ==>
        ByteAt(sb, d2, j, o) == ByteAt(sb, d1, j, o)
    ensures Grown(sb, d, d2, i, k, b)
  {
    forall j: nat, l: nat | j < sb.ninodes && l < NSLOT
      ensures AddrAt(sb, d2, j, l) == if j == i && l == k then b else AddrAt(sb, d, j, l)
    {
      assert AddrAt(sb, d1, j, l) == AddrAt(sb, d, j, l);
    }
    forall j: nat, o: nat | j < sb.ninodes && o < MAXFILE * BSIZE ensures ByteAt(sb, d2, j, o) == ByteAt(sb, d, j, o) {
      assert ByteAt(sb, d1, j, o) == ByteAt(sb, d, j, o);
    }
    assert d.cached[i].(addrs := d.cached[i].addrs) == d.cached[i];
  }

  /** bmap gives the inode an entry of its indirect block. */
  lemma GrowEntry(sb: Super, d: Fs, owner: map<nat, Slot>, i: nat, e: nat, b: nat)
    requires FsOk(sb, d, owner) && i in d.cached && e < NINDIRECT
    requires AddrAt(sb, d, i, NDIRECT) != 0 && AddrAt(sb, d, i, NDIRECT + 1 + e) == 0
    requires b < sb.size && !Marked(sb, d, b)
    ensures var a, k := AddrAt(sb, d, i, NDIRECT), NDIRECT + 1 + e;
      && sb.datastart <= a < sb.size && a != b
      && var d' := SetEntry(Allocated(sb, d, b), a, e, b);
         Grown(sb, d, d', i, k, b) && FsOk(sb, d', owner[b := Slot(i, k)])
  {
    var d1, a, k := Allocated(sb, d, b), AddrAt(sb, d, i, NDIRECT), NDIRECT + 1 + e;
    assert SlotOk(sb, d, owner, i, NDIRECT);
    AllocOwn(sb, d, owner, b);
    UnmarkedFree(sb, d, owner, b);
    OwnInData(sb, d1, owner, {b});
    assert AddrAt(sb, d1, i, k) == 0 && AddrAt(sb, d1, i, NDIRECT) == a;
    SetEntryLinks(sb, d1, owner, {b}, i, e, b);
    var d2 := SetEntry(d1, a, e, b);
    forall c: nat | c < sb.size ensures Marked(sb, d2, c) == Marked(sb, d1, c) {
      MarkFrame(sb, d1, a, PutWord(d1.blocks[a], e, b), c);
    }
    LinkOwn(sb, d1, d2, owner, i, k, b);
    DistinctIndirect(sb, d1, owner, {b}, i);
    LinkBytes(sb, d1, d2, i, k, b);
    LinkGrows(sb, d, d1, d2, i, k, b);
    ExtendsOk(sb, d, d2, owner, owner[b := Slot(i, k)], i);
  }

  // ----- sizes -----

  function SetSize(d: Fs, i: nat, size: Word): (r: Fs)
    requires i in d.cached
  {
    d.(cached := d.cached[i := d.cached[i].(size := size)])
  }

  lemma SetSizeOk(sb: Super, d: Fs, owner: map<nat, Slot>, i: nat, size: Word)
    requires FsOk(sb, d, owner) && i in d.cached && size <= MAXFILE * BSIZE
    requires forall bn: nat :: bn < MAXFILE && bn * BSIZE < size ==> AddrAt(sb, d, i, DataSlot(bn)) != 0
    ensures FsOk(sb, SetSize(d, i, size), owner)
    ensures forall j: nat, k: nat :: j < sb.ninodes && k < NSLOT ==>
        AddrAt(sb, SetSize(d, i, size), j, k) == AddrAt(sb, d, j, k)
    ensures forall j: nat, o: nat :: j < sb.ninodes && o < MAXFILE * BSIZE ==>
              ByteAt(sb, SetSize(d, i, size), j, o) == ByteAt(sb, d, j, o)
  {
    var d' := SetSize(d, i, size);
    forall j: nat, k: nat | j < sb.ninodes && k < NSLOT ensures AddrAt(sb, d', j, k) == AddrAt(sb, d, j, k) {}
    forall b: nat | b < sb.size ensures MarkOk(sb, d', owner, {}, b) { assert MarkOk(sb, d, owner, {}, b); }
    OwnFrame(sb, d, d', owner, {}, {}, sb.ninodes);
    forall j: nat | j < sb.ninodes ensures InodeOk(sb, d', j) {
      assert InodeOk(sb, d, j);
    }
  }

  lemma UpdateOk(sb: Super, d: Fs, owner: map<nat, Slot>, i: nat)
    requires FsOk(sb, d, owner) && i in d.cached && i < sb.ninodes && Clean(sb, d, i)
    ensures FsOk(sb, Updated(sb, d, i), owner) && Clean(sb, Updated(sb, d, i), sb.ninodes)
    ensures SameFiles(sb, d, Updated(sb, d, i))
  {
    var d' := Updated(sb, d, i);
    OwnInData(sb, d, owner, {});
    UpdateFiles(sb, d, i);
    UpdateOwn(sb, d, owner, i);
    forall j: nat | j < sb.ninodes ensures InodeOk(sb, d', j) { SameInodeOk(sb, d, d', j); }
  }

  lemma SameInodeOk(sb: Super, d: Fs, d': Fs, j: nat)
    requires Sized(sb, d) && Sized(sb, d') && j < sb.ninodes && InodeOk(sb, d, j)
    requires Current(sb, d', j) == Current(sb, d, j)
    requires forall k: nat :: k < NSLOT ==> AddrAt(sb, d', j, k) == AddrAt(sb, d, j, k)
    ensures InodeOk(sb, d', j)
  {
    forall bn: nat | bn < MAXFILE && bn * BSIZE < Current(sb, d', j).size ensures AddrAt(sb, d', j, DataSlot(bn)) != 0 {
      assert AddrAt(sb, d, j, DataSlot(bn)) != 0;
    }
  }

  lemma DataWriteOk(sb: Super, d: Fs, owner: map<nat, Slot>, i: nat, bn: nat, x: Block)
    requires FsOk(sb, d, owner) && i < sb.ninodes && bn < MAXFILE && AddrAt(sb, d, i, DataSlot(bn)) != 0
    ensures sb.datastart <= AddrAt(sb, d, i, DataSlot(bn)) < sb.size
    ensures FsOk(sb, PutBlock(d, AddrAt(sb, d, i, DataSlot(bn)), x), owner)
  {
    DataWrite(sb, d, owner, i, bn, x);
    var d' := PutBlock(d, AddrAt(sb, d, i, DataSlot(bn)), x);
    forall j: nat | j < sb.ninodes ensures InodeOk(sb, d', j) {
      assert InodeOk(sb, d, j);
      AddrFrame(sb, d, AddrAt(sb, d, i, DataSlot(bn)), x, j, 0);
      SameInodeOk(sb, d, d', j);
    }
  }

  // ----- writing -----

  /** The first tot bytes of src stand at offset off of file i; every other byte of
      every file is as before. */
  ghost predicate Written(sb: Super, d: Fs, d': Fs, i: nat, off: nat, src: seq<Byte>, tot: nat) {
    && Sized(sb, d) && Sized(sb, d') && tot <= |src| && off + tot <= MAXFILE * BSIZE
    && (forall j: nat, o: nat :: j < sb.ninodes && o < MAXFILE * BSIZE ==>
          ByteAt(sb, d', j, o) == if j == i && off <= o < off + tot then src[o - off] else ByteAt(sb, d, j, o))
  }

  /** Block x with src[..m] at offset at. */
  function Patch(x: Block, at: nat, src: seq<Byte>): (y: Block)
    requires at + |src| <= BSIZE
    ensures forall q: nat :: q < BSIZE ==> y[q] == if at <= q < at + |src| then src[q - at] else x[q]
  {
    seq<Byte>(BSIZE, q requires 0 <= q < BSIZE => if at <= q < at + |src| then src[q - at] else x[q])
  }

  lemma RoundBytes(sb: Super, d0: Fs, d: Fs, d': Fs, i: nat, off: nat, src: seq<Byte>, tot: nat, m: nat)
    requires Written(sb, d0, d, i, off, src, tot) && Sized(sb, d') && i < sb.ninodes
    requires 0 < m <= |src| - tot && off + tot + m <= MAXFILE * BSIZE && m <= BSIZE - (off + tot) % BSIZE
    requires forall j: nat, o: nat :: j < sb.ninodes && o < MAXFILE * BSIZE ==>
      ByteAt(sb, d', j, o) ==
        if j == i && o / BSIZE == (off + tot) / BSIZE && (off + tot) % BSIZE <= o % BSIZE < (off + tot) % BSIZE + m
        then src[tot + o % BSIZE - (off + tot) % BSIZE] else ByteAt(sb, d, j, o)
    ensures Written(sb, d0, d', i, off, src, tot + m)
  {
    forall j: nat, o: nat | j < sb.ninodes && o < MAXFILE * BSIZE
      ensures ByteAt(sb, d', j, o) == if j == i && off <= o < off + tot + m then src[o - off] else ByteAt(sb, d0, j, o)
    {
      assert ByteAt(sb, d, j, o) == if j == i && off <= o < off + tot then src[o - off] else ByteAt(sb, d0, j, o);
      SameBlock(off + tot, m, o);
    }
  }

  /** One round of writei's loop, once bmap has found the block. */
  lemma WriteRound(sb: Super, d0: Fs, d: Fs, owner: map<nat, Slot>, i: nat, off: nat, src: seq<Byte>, tot: nat, m: nat)
    requires FsOk(sb, d, owner) && i < sb.ninodes && Written(sb, d0, d, i, off, src, tot)
    requires 0 < m <= |src| - tot && off + tot + m <= MAXFILE * BSIZE && m <= BSIZE - (off + tot) % BSIZE
    requires AddrAt(sb, d, i, DataSlot((off + tot) / BSIZE)) != 0
    ensures var a := AddrAt(sb, d, i, DataSlot((off + tot) / BSIZE));
      && sb.datastart <= a < sb.size
      && var d' := PutBlock(d, a, Patch(d.blocks[a], (off + tot) % BSIZE, src[tot..tot + m]));
         FsOk(sb, d', owner) && Written(sb, d0, d', i, off, src, tot + m)
  {
    var bn, at := (off + tot) / BSIZE, (off + tot) % BSIZE;
    DataWriteOk(sb, d, owner, i, bn, ZERO);
    var a := AddrAt(sb, d, i, DataSlot(bn));
    var x := Patch(d.blocks[a], at, src[tot..tot + m]);
    DataWrite(sb, d, owner, i, bn, x);
    DataWriteOk(sb, d, owner, i, bn, x);
    forall o: nat | o < MAXFILE * BSIZE && o / BSIZE == bn ensures ByteAt(sb, d, i, o) == d.blocks[a][o % BSIZE] {}
    RoundBytes(sb, d0, d, PutBlock(d, a, x), i, off, src, tot, m);
  }

  /** Bytes p .. p + m of a file are in one block. */
  lemma SameBlock(p: nat, m: nat, o: nat)
    requires m <= BSIZE - p % BSIZE
    ensures o / BSIZE == p / BSIZE ==> o - p == o % BSIZE - p % BSIZE
    ensures p <= o < p + m ==> o / BSIZE == p / BSIZE
  {}

  /** What the start of file i's blocks up to byte end are mapped means. */
  ghost predicate MappedTo(sb: Super, d: Fs, i: nat, end: nat) {
    && Sized(sb, d) && i < sb.ninodes
    && forall bn: nat :: bn < MAXFILE && bn * BSIZE < end ==> AddrAt(sb, d, i, DataSlot(bn)) != 0
  }

  lemma GrowsMapped(sb: Super, d: Fs, d': Fs, i: nat, end: nat)
    requires Grows(sb, d, d', i) && MappedTo(sb, d, i, end)
    ensures MappedTo(sb, d', i, end)
  {
    forall bn: nat | bn < MAXFILE && bn * BSIZE < end ensures AddrAt(sb, d', i, DataSlot(bn)) != 0 {
      assert AddrAt(sb, d, i, DataSlot(bn)) != 0;
    }
  }

  /** A data write leaves every block number where it was. */
  lemma DataWriteGrows(sb: Super, d: Fs, owner: map<nat, Slot>, i: nat, bn: nat, x: Block)
    requires FsOk(sb, d, owner) && i in d.cached && i < sb.ninodes
    requires bn < MAXFILE && AddrAt(sb, d, i, DataSlot(bn)) != 0
    ensures sb.datastart <= AddrAt(sb, d, i, DataSlot(bn)) < sb.size
    ensures Grows(sb, d, PutBlock(d, AddrAt(sb, d, i, DataSlot(bn)), x), i)
    ensures forall k: nat :: k < NSLOT ==>
              AddrAt(sb, PutBlock(d, AddrAt(sb, d, i, DataSlot(bn)), x), i, k) == AddrAt(sb, d, i, k)
  {
    DataWrite(sb, d, owner, i, bn, x);
    assert d.cached[i].(addrs := d.cached[i].addrs) == d.cached[i];
  }

  /** Block b is one of the blocks lo .. hi of file i. */
  ghost predicate IsData(sb: Super, d: Fs, i: nat, lo: nat, hi: nat, b: nat) {
    && Sized(sb, d) && i < sb.ninodes && hi <= MAXFILE && b != 0
    && exists bn: nat :: lo <= bn < hi && AddrAt(sb, d, i, DataSlot(bn)) == b
  }

  /** Every block below a file's size is a data block of the disk. */
  lemma MappedBlock(sb: Super, d: Fs, owner: map<nat, Slot>, i: nat, o: nat)
    requires FsOk(sb, d, owner) && i < sb.ninodes && o < Current(sb, d, i).size
    ensures o / BSIZE < MAXFILE && sb.datastart <= AddrAt(sb, d, i, DataSlot(o / BSIZE)) < sb.size
  {
    assert InodeOk(sb, d, i);
    assert o / BSIZE * BSIZE <= o;
    assert SlotOk(sb, d, owner, i, DataSlot(o / BSIZE));
  }

  /** One round of readi's loop reads the file's bytes. */
  lemma ReadRound(sb: Super, d: Fs, i: nat, o: nat, m: nat, a: nat)
    requires Sized(sb, d) && i < sb.ninodes && m <= BSIZE - o % BSIZE
    requires o + m <= Current(sb, d, i).size <= MAXFILE * BSIZE && o < Current(sb, d, i).size
    requires o / BSIZE < MAXFILE && AddrAt(sb, d, i, DataSlot(o / BSIZE)) == a && 0 < a < sb.size
    ensures d.blocks[a][o % BSIZE..o % BSIZE + m] == Content(sb, d, i)[o..o + m]
  {
    var at := o % BSIZE;
    ReadSlice(sb, d, i, o, m, a, at, d.blocks[a][at..at + m], Content(sb, d, i)[o..o + m]);
  }

  lemma ReadSlice(sb: Super, d: Fs, i: nat, o: nat, m: nat, a: nat, at: nat, x: seq<Byte>, y: seq<Byte>)
    requires Sized(sb, d) && i < sb.ninodes && at == o % BSIZE && m <= BSIZE - at
    requires o + m <= Current(sb, d, i).size <= MAXFILE * BSIZE
    requires o / BSIZE < MAXFILE && AddrAt(sb, d, i, DataSlot(o / BSIZE)) == a && 0 < a < sb.size
    requires x == d.blocks[a][at..at + m] && y == Content(sb, d, i)[o..o + m]
    ensures x == y
  {
    forall q: nat | q < m ensures x[q] == y[q] { ReadByte(sb, d, i, o, m, a, at, q); }
  }

  lemma ReadByte(sb: Super, d: Fs, i: nat, o: nat, m: nat, a: nat, at: nat, q: nat)
    requires Sized(sb, d) && i < sb.ninodes && at == o % BSIZE && m <= BSIZE - at && q < m
    requires o + m <= Current(sb, d, i).size <= MAXFILE * BSIZE
    requires o / BSIZE < MAXFILE && AddrAt(sb, d, i, DataSlot(o / BSIZE)) == a && 0 < a < sb.size
    ensures at + q < BSIZE && d.blocks[a][at + q] == Content(sb, d, i)[o + q]
  {
    SameBlock(o, m, o + q);
    assert Content(sb, d, i)[o + q] == ByteAt(sb, d, i, o + q);
  }

  lemma ExtendsWritten(sb: Super, d0: Fs, d: Fs, d': Fs, i: nat, off: nat, src: seq<Byte>, tot: nat)
    requires Written(sb, d0, d, i, off, src, tot) && SameBytes(sb, d, d')
    ensures Written(sb, d0, d', i, off, src, tot)
  {
    forall j: nat, o: nat | j < sb.ninodes && o < MAXFILE * BSIZE
      ensures ByteAt(sb, d', j, o) == if j == i && off <= o < off + tot then src[o - off] else ByteAt(sb, d0, j, o)
    {
      assert ByteAt(sb, d, j, o) == if j == i && off <= o < off + tot then src[o - off] else ByteAt(sb, d0, j, o);
    }
  }

  /** The block that holds byte p reaches to where the next round starts. */
  lemma NextRound(sb: Super, d: Fs, i: nat, p: nat, m: nat)
    requires MappedTo(sb, d, i, p) && m <= BSIZE - p % BSIZE && p / BSIZE < MAXFILE
    requires AddrAt(sb, d, i, DataSlot(p / BSIZE)) != 0
    ensures MappedTo(sb, d, i, p + m)
  {
    forall bn: nat | bn < MAXFILE && bn * BSIZE < p + m ensures AddrAt(sb, d, i, DataSlot(bn)) != 0 {
      if bn * BSIZE >= p { assert bn == p / BSIZE; }
    }
  }

  lemma CleanGrows(sb: Super, d: Fs, d': Fs, i: nat)
    requires Clean(sb, d, i) && Grows(sb, d, d', i)
    ensures Clean(sb, d', i)
  {
    forall j | j in d'.cached && j < sb.ninodes && j != i ensures d'.cached[j] == OnDisk(sb, d', j) {
      GrowsCurrent(sb, d, d', i, j);
    }
  }

  // ----- what an operation logs -----

  /** A bitmap block of this file system. */
  ghost predicate IsBitmap(sb: Super, b: nat) {
    exists x: nat :: x < sb.size && b == sb.bmapstart + x / BPB
  }

  /** Blocks that mapping block r may log: the bitmap, r, and the indirect block a. */
  ghost predicate LogsFor(sb: Super, bs: set<nat>, r: nat, a: nat) {
    forall b :: b in bs ==> IsBitmap(sb, b) || (b == r && r != 0) || (b == a && a != 0)
  }

  /** Blocks that a write to blocks lo .. hi of file i may log: the bitmap, the
      inode, the indirect block and those blocks. */
  ghost predicate LogsWrite(sb: Super, d: Fs, bs: set<nat>, i: nat, lo: nat, hi: nat) {
    && Sized(sb, d) && i < sb.ninodes
    && forall b :: b in bs ==>
        || IsBitmap(sb, b) || b == InodeBlock(sb, i) || (b == AddrAt(sb, d, i, NDIRECT) && b != 0)
        || IsData(sb, d, i, lo, hi, b)
  }

  lemma LogsStay(sb: Super, d: Fs, d': Fs, bs: set<nat>, i: nat, lo: nat, hi: nat, lo': nat, hi': nat)
    requires LogsWrite(sb, d, bs, i, lo, hi) && Grows(sb, d, d', i) && lo' <= lo && hi <= hi' <= MAXFILE
    ensures LogsWrite(sb, d', bs, i, lo', hi')
  {
    forall b | b in bs && IsData(sb, d, i, lo, hi, b) ensures IsData(sb, d', i, lo', hi', b) {
      var bn: nat :| lo <= bn < hi && AddrAt(sb, d, i, DataSlot(bn)) == b;
      assert AddrAt(sb, d', i, DataSlot(bn)) == b;
    }
  }

  /** The number of blocks that bytes 0 .. end of a file take. */
  function BlocksTo(end: nat): (n: nat) { (end + BSIZE - 1) / BSIZE }

  /** Between d0 and d' a write put the first tot bytes of src at offset off of
      file i: those bytes and the file's size and block numbers are all that
      changed of any file. */
  ghost predicate Wrote(sb: Super, d0: Fs, d': Fs, i: nat, off: nat, src: seq<Byte>, tot: nat) {
    Written(sb, d0, d', i, off, src, tot) && Resized(sb, d0, d', i, off + tot)
  }

  ghost predicate Resized(sb: Super, d0: Fs, d': Fs, i: nat, end: nat) {
    && Sized(sb, d0) && Sized(sb, d') && i < sb.ninodes && i in d0.cached && d'.cached.Keys == d0.cached.Keys
    && d'.cached[i].size == (if end > d0.cached[i].size then end else d0.cached[i].size)
    && d'.cached[i] == d0.cached[i].(size := d'.cached[i].size, addrs := d'.cached[i].addrs)
    && (forall j: nat :: j < sb.ninodes && j != i ==> Current(sb, d', j) == Current(sb, d0, j))
  }

  /** The end of writei: the new size, and the inode written back. */
  lemma FinishWrite(sb: Super, d0: Fs, d: Fs, owner: map<nat, Slot>, i: nat, off: nat, src: seq<Byte>, tot: nat,
                    size: Word)
    requires FsOk(sb, d, owner) && i < sb.ninodes && Grows(sb, d0, d, i) && Clean(sb, d0, sb.ninodes)
    requires Written(sb, d0, d, i, off, src, tot) && MappedTo(sb, d, i, off + tot)
    requires size == if off + tot > d.cached[i].size then off + tot else d.cached[i].size
    ensures var d' := Updated(sb, SetSize(d, i, size), i);
      && FsOk(sb, d', owner) && Clean(sb, d', sb.ninodes) && Wrote(sb, d0, d', i, off, src, tot)
      && (forall k: nat :: k < NSLOT ==> AddrAt(sb, d', i, k) == AddrAt(sb, d, i, k))
  {
    var d1 := SetSize(d, i, size);
    FinishSize(sb, d0, d, d1, owner, i, off, src, tot, size);
    FinishClean(sb, d0, d, i, size);
    UpdateOk(sb, d1, owner, i);
    var d2 := Updated(sb, d1, i);
    ExtendsWritten(sb, d0, d1, d2, i, off, src, tot);
    forall j: nat | j < sb.ninodes && j != i ensures Current(sb, d2, j) == Current(sb, d0, j) {
      assert Current(sb, d2, j) == Current(sb, d1, j);
    }
  }

  lemma FinishSize(sb: Super, d0: Fs, d: Fs, d': Fs, owner: map<nat, Slot>, i: nat, off: nat, src: seq<Byte>,
                   tot: nat, size: Word)
    requires FsOk(sb, d, owner) && i < sb.ninodes && Grows(sb, d0, d, i) && Clean(sb, d0, sb.ninodes)
    requires Written(sb, d0, d, i, off, src, tot) && MappedTo(sb, d, i, off + tot) && d' == SetSize(d, i, size)
    requires size == if off + tot > d.cached[i].size then off + tot else d.cached[i].size
    ensures FsOk(sb, d', owner) && Wrote(sb, d0, d', i, off, src, tot)
    ensures forall k: nat :: k < NSLOT ==> AddrAt(sb, d', i, k) == AddrAt(sb, d, i, k)
  {
    assert InodeOk(sb, d, i);
    SetSizeOk(sb, d, owner, i, size);
    FinishWrote(sb, d0, d, d', i, off, src, tot, size);
  }

  lemma FinishClean(sb: Super, d0: Fs, d: Fs, i: nat, size: Word)
    requires i < sb.ninodes && Grows(sb, d0, d, i) && Clean(sb, d0, sb.ninodes) && i in d.cached
    ensures Clean(sb, SetSize(d, i, size), i)
  {
    CleanGrows(sb, d0, d, i);
  }

  lemma FinishWrote(sb: Super, d0: Fs, d: Fs, d': Fs, i: nat, off: nat, src: seq<Byte>, tot: nat, size: Word)
    requires Sized(sb, d) && i < sb.ninodes && Grows(sb, d0, d, i) && d' == SetSize(d, i, size) && SameBytes(sb, d, d')
    requires Written(sb, d0, d, i, off, src, tot)
    requires size == if off + tot > d.cached[i].size then off + tot else d.cached[i].size
    ensures Wrote(sb, d0, d', i, off, src, tot)
  {
    ExtendsWritten(sb, d0, d, d', i, off, src, tot);
    FinishResized(sb, d0, d, i, off + tot, size);
  }

  lemma FinishResized(sb: Super, d0: Fs, d: Fs, i: nat, end: nat, size: Word)
    requires Sized(sb, d) && i < sb.ninodes && Grows(sb, d0, d, i) && size == if end > d.cached[i].size then end
        else d.cached[i].size
    ensures Resized(sb, d0, SetSize(d, i, size), i, end)
  {
    forall j: nat | j < sb.ninodes && j != i ensures Current(sb, SetSize(d, i, size), j) == Current(sb, d0, j) {
      GrowsCurrent(sb, d0, d, i, j);
    }
  }

  lemma LogsFinish(sb: Super, d: Fs, d': Fs, bs: set<nat>, i: nat, lo: nat, hi: nat)
    requires LogsWrite(sb, d, bs, i, lo, hi) && Sized(sb, d') && hi <= MAXFILE
    requires forall k: nat :: k < NSLOT ==> AddrAt(sb, d', i, k) == AddrAt(sb, d, i, k)
    ensures LogsWrite(sb, d', bs + {InodeBlock(sb, i)}, i, lo, hi)
  {
    forall b | b in bs && IsData(sb, d, i, lo, hi, b) ensures IsData(sb, d', i, lo, hi, b) {
      var bn: nat :| lo <= bn < hi && AddrAt(sb, d, i, DataSlot(bn)) == b;
      assert AddrAt(sb, d', i, DataSlot(bn)) == b;
    }
  }

  // ----- allocating and loading inodes -----

  function NewInode(typ: Half): (n: Inode) { Inode(typ, 0, 0, 0, 0, seq(NDIRECT + 1, _ => 0)) }

  lemma PutInodeDisk(sb: Super, d: Fs, i: nat, n: Inode, j: nat)
    requires Sized(sb, d) && i < sb.ninodes && j < sb.ninodes
    ensures var d' := PutBlock(d, InodeBlock(sb, i), PutInode(d.blocks[InodeBlock(sb, i)], i, n));
      OnDisk(sb, d', j) == if j == i then n else OnDisk(sb, d, j)
  {
    if j / IPB == i / IPB { InodeRoundTrip(d.blocks[InodeBlock(sb, i)], i, n, j); }
  }

  /** A new on-disk inode in place of a free one that is not in memory. */
  lemma PutInodeFiles(sb: Super, d: Fs, i: nat, n: Inode)
    requires InData(sb, d) && i < sb.ninodes && i !in d.cached
    ensures var d' := PutBlock(d, InodeBlock(sb, i), PutInode(d.blocks[InodeBlock(sb, i)], i, n));
      && SameOthers(sb, d, d', i) && Current(sb, d', i) == n
      && (forall b: nat :: b < sb.size ==> Marked(sb, d', b) == Marked(sb, d, b))
      && (forall j: nat :: j < sb.ninodes && j != i ==> OnDisk(sb, d', j) == OnDisk(sb, d, j))
  {
    var m := InodeBlock(sb, i);
    var d' := PutBlock(d, m, PutInode(d.blocks[m], i, n));
    forall j: nat | j < sb.ninodes
      ensures OnDisk(sb, d', j) == if j == i then n else OnDisk(sb, d, j)
      ensures Current(sb, d', j) == if j == i then n else Current(sb, d, j)
    {
      PutInodeDisk(sb, d, i, n, j);
    }
    forall j: nat, k: nat | j < sb.ninodes && j != i && k < NSLOT ensures AddrAt(sb, d', j, k) == AddrAt(sb, d, j, k) {
      InodeAddrFrame(sb, d, m, d'.blocks[m], j, k);
    }
    forall j: nat, o: nat | j < sb.ninodes && j != i && o < MAXFILE * BSIZE
      ensures ByteAt(sb, d', j, o) == ByteAt(sb, d, j, o)
    {
      InodeByteFrame(sb, d, m, d'.blocks[m], j, o);
    }
  }

  /** Writing an inode block leaves the block numbers and the bytes of the inodes that are
      as they were. */
  lemma InodeAddrFrame(sb: Super, d: Fs, m: nat, x: Block, j: nat, k: nat)
    requires InData(sb, d) && m < sb.bmapstart && j < sb.ninodes && k < NSLOT
    requires Current(sb, PutBlock(d, m, x), j) == Current(sb, d, j)
    ensures AddrAt(sb, PutBlock(d, m, x), j, k) == AddrAt(sb, d, j, k)
  {
    assert AddrInData(sb, d, j, NDIRECT);
  }

  lemma InodeByteFrame(sb: Super, d: Fs, m: nat, x: Block, j: nat, o: nat)
    requires InData(sb, d) && m < sb.bmapstart && j < sb.ninodes && o < MAXFILE * BSIZE
    requires Current(sb, PutBlock(d, m, x), j) == Current(sb, d, j)
    ensures ByteAt(sb, PutBlock(d, m, x), j, o) == ByteAt(sb, d, j, o)
  {
    InodeAddrFrame(sb, d, m, x, j, DataSlot(o / BSIZE));
    assert AddrInData(sb, d, j, DataSlot(o / BSIZE));
  }

  ghost predicate NoBlocks(sb: Super, d: Fs, i: nat) {
    Sized(sb, d) && i < sb.ninodes && forall k: nat :: k < NSLOT ==> AddrAt(sb, d, i, k) == 0
  }

  /** Replacing one inode without blocks by another. */
  lemma SwapOwn(sb: Super, d: Fs, d': Fs, owner: map<nat, Slot>, i: nat)
    requires Own(sb, d, owner, {}, sb.ninodes) && SameOthers(sb, d, d', i) && NoBlocks(sb, d, i) && NoBlocks(sb, d', i)
    requires forall b: nat :: b < sb.size ==> Marked(sb, d', b) == Marked(sb, d, b)
    ensures Own(sb, d', owner, {}, sb.ninodes)
  {
    forall j: nat, k: nat | j < sb.ninodes && k < NSLOT ensures AddrAt(sb, d', j, k) == AddrAt(sb, d, j, k) {
      if j == i { assert AddrAt(sb, d', i, k) == 0 && AddrAt(sb, d, i, k) == 0; }
    }
    forall b: nat | b < sb.size ensures MarkOk(sb, d', owner, {}, b) {
      assert MarkOk(sb, d, owner, {}, b) && Marked(sb, d', b) == Marked(sb, d, b);
    }
    OwnFrame(sb, d, d', owner, {}, {}, sb.ninodes);
  }

  lemma SwapOk(sb: Super, d: Fs, d': Fs, owner: map<nat, Slot>, i: nat)
    requires FsOk(sb, d, owner) && SameOthers(sb, d, d', i) && NoBlocks(sb, d, i) && NoBlocks(sb, d', i)
    requires forall b: nat :: b < sb.size ==> Marked(sb, d', b) == Marked(sb, d, b)
    requires Current(sb, d', i).size == 0 && d'.cached == d.cached - {i}
    ensures FsOk(sb, d', owner)
  {
    SwapOwn(sb, d, d', owner, i);
    forall j: nat | j < sb.ninodes ensures InodeOk(sb, d', j) {
      if j != i {
        assert InodeOk(sb, d, j) && Current(sb, d', j) == Current(sb, d, j);
        SameInodeOk(sb, d, d', j);
      }
    }
  }

  lemma NotThere(cached: map<nat, Inode>, i: nat)
    requires i !in cached
    ensures cached == cached - {i}
  {}

  lemma NewInodeOk(sb: Super, d: Fs, owner: map<nat, Slot>, i: nat, typ: Half)
    requires FsOk(sb, d, owner) && Clean(sb, d, sb.ninodes) && i < sb.ninodes && i !in d.cached
    requires Current(sb, d, i).typ == 0 && typ != 0
    ensures var d' := PutBlock(d, InodeBlock(sb, i), PutInode(d.blocks[InodeBlock(sb, i)], i, NewInode(typ)));
      FsOk(sb, d', owner) && Clean(sb, d', sb.ninodes) && SameOthers(sb, d, d', i)
          && Current(sb, d', i) == NewInode(typ)
  {
    var d' := PutBlock(d, InodeBlock(sb, i), PutInode(d.blocks[InodeBlock(sb, i)], i, NewInode(typ)));
    OwnInData(sb, d, owner, {});
    PutInodeFiles(sb, d, i, NewInode(typ));
    assert InodeOk(sb, d, i);
    NotThere(d.cached, i);
    SwapOk(sb, d, d', owner, i);
  }

  /** ilock's read of an inode. */
  lemma LoadOk(sb: Super, d: Fs, owner: map<nat, Slot>, i: nat)
    requires FsOk(sb, d, owner) && Clean(sb, d, sb.ninodes) && i < sb.ninodes && i !in d.cached
    requires OnDisk(sb, d, i).typ != 0
    ensures var d' := d.(cached := d.cached[i := OnDisk(sb, d, i)]);
      FsOk(sb, d', owner) && Clean(sb, d', sb.ninodes) && SameFiles(sb, d, d')
  {
    var d' := d.(cached := d.cached[i := OnDisk(sb, d, i)]);
    LoadSame(sb, d, i);
    forall b: nat | b < sb.size ensures MarkOk(sb, d', owner, {}, b) { assert MarkOk(sb, d, owner, {}, b); }
    OwnFrame(sb, d, d', owner, {}, {}, sb.ninodes);
    forall j: nat | j < sb.ninodes ensures InodeOk(sb, d', j) {
      assert InodeOk(sb, d, j);
      SameInodeOk(sb, d, d', j);
    }
  }

  lemma LoadSame(sb: Super, d: Fs, i: nat)
    requires Sized(sb, d) && i < sb.ninodes && i !in d.cached
    ensures SameFiles(sb, d, d.(cached := d.cached[i := OnDisk(sb, d, i)]))
  {
    var d' := d.(cached := d.cached[i := OnDisk(sb, d, i)]);
    forall j: nat | j < sb.ninodes ensures Current(sb, d', j) == Current(sb, d, j) {}
  }

  /** Inode i with type 0 on disk, and not in memory. */
  function GivenUp(sb: Super, d: Fs, i: nat): (r: Fs)
    requires Sized(sb, d) && i < sb.ninodes && i in d.cached
  {
    var d2 := Updated(sb, d.(cached := d.cached[i := d.cached[i].(typ := 0)]), i);
    d2.(cached := d2.cached - {i})
  }

  /** The inode of a truncated file given up by iput. */
  lemma FreedOk(sb: Super, d: Fs, owner: map<nat, Slot>, i: nat)
    requires FsOk(sb, d, owner) && Clean(sb, d, sb.ninodes) && i in d.cached && i < sb.ninodes
    requires NoBlocks(sb, d, i) && d.cached[i].size == 0
    ensures var d3 := GivenUp(sb, d, i);
      && FsOk(sb, d3, owner) && Clean(sb, d3, sb.ninodes) && SameOthers(sb, d, d3, i)
      && Current(sb, d3, i).typ == 0 && (forall b: nat :: b < sb.size ==> Marked(sb, d3, b) == Marked(sb, d, b))
  {
    var n := d.cached[i].(typ := 0);
    var d0 := d.(cached := d.cached - {i});
    var m := InodeBlock(sb, i);
    var d3 := PutBlock(d0, m, PutInode(d0.blocks[m], i, n));
    DropClean(sb, d, owner, i);
    PutInodeFiles(sb, d0, i, n);
    SameFilesOthers(sb, d, d0, i);
    SameOthersTrans(sb, d, d0, d3, i);
    forall k: nat | k < NSLOT ensures AddrAt(sb, d3, i, k) == 0 { assert AddrAt(sb, d, i, k) == 0
        && AddrAt(sb, d, i, NDIRECT) == 0; }
    SwapOk(sb, d, d3, owner, i);
    var d1 := d.(cached := d.cached[i := n]);
    var d2 := Updated(sb, d1, i);
    assert d2.cached - {i} == d.cached - {i};
    assert d2.(cached := d2.cached - {i}) == d3;
  }

  /** Forgetting a clean in-memory inode changes nothing. */
  lemma DropClean(sb: Super, d: Fs, owner: map<nat, Slot>, i: nat)
    requires FsOk(sb, d, owner) && Clean(sb, d, sb.ninodes)
    ensures SameFiles(sb, d, d.(cached := d.cached - {i})) && InData(sb, d.(cached := d.cached - {i}))
  {
    var d' := d.(cached := d.cached - {i});
    OwnInData(sb, d, owner, {});
    forall j: nat | j < sb.ninodes ensures Current(sb, d', j) == Current(sb, d, j) {}
    forall j: nat, k: nat | j < sb.ninodes && k < NSLOT ensures AddrInData(sb, d', j, k) {
      assert AddrInData(sb, d, j, k) && Current(sb, d', j) == Current(sb, d, j);
    }
  }

  // ----- where a write stops -----

  /** How many bytes a round of writei's loop moves: to the end of the block, or all that are left. */
  function RoundSize(at: nat, left: nat): (m: nat) {
    if left < BSIZE - at % BSIZE then left else BSIZE - at % BSIZE
  }

  ghost predicate AllMarked(sb: Super, d: Fs)
    requires Sized(sb, d)
  {
    forall b: nat :: b < sb.size ==> Marked(sb, d, b)
  }

  /** A write of n bytes stops after tot of them: the next round would read beyond what can be read of
      the source, or the disk is full. */
  ghost predicate StopsAt(sb: Super, d: Fs, off: nat, n: nat, good: nat, tot: nat) {
    Sized(sb, d) && tot < n && (tot + RoundSize(off + tot, n - tot) > good || AllMarked(sb, d))
  }

  /** filewrite of n bytes ends early, in the operation that began after k bytes: writei refused the
      range, or stopped. */
  ghost predicate EndsShort(sb: Super, d: Fs, i: nat, off: nat, n: nat, good: nat, k: nat, done: nat) {
    && k <= done < n && i in d.cached
    && var n1 := ChunkSize(n - k);
       || (done == k && (off + k > d.cached[i].size || off + k + n1 > MAXFILE * BSIZE))
       || (StopsAt(sb, d, off + k, n1, if good > k then good - k else 0, done - k))
  }

  const CHUNK: nat := 3072  // ((MAXOPBLOCKS - 1 - 1 - 2) / 2) * BSIZE

  function ChunkSize(left: nat): (n1: nat) { if left > CHUNK then CHUNK else left }

  /** What writei of n bytes returns, in state d after it. */
  ghost predicate WriteReturns(sb: Super, d: Fs, i: nat, off: nat, n: nat, good: nat, r: int) {
    && -1 <= r <= n && i in d.cached && (r > 0 ==> r <= good) && (-1 < r < n ==> StopsAt(sb, d, off, n, good, r))
    && (r == -1 ==> off > d.cached[i].size || off + n > MAXFILE * BSIZE)
  }

  lemma OperationEnds(sb: Super, d: Fs, i: nat, off: nat, n: nat, good: nat, k: nat, at: nat, n1: nat, g: nat, r: int,
                      done: nat)
    requires k < n && n1 == ChunkSize(n - k) && at == off + k && g == if good > k then good - k else 0
    requires WriteReturns(sb, d, i, at, n1, g, r) && done == if r > 0 then k + r else k
    ensures (r != n1 ==> EndsShort(sb, d, i, off, n, good, k, done)) && (r > 0 ==> done <= good)
  {}

  // ----- a sequence of writes -----

  /** k bytes of src have been written at off; before the first write nothing has
      changed. */
  ghost predicate Done(sb: Super, d0: Fs, d: Fs, i: nat, off: nat, src: seq<Byte>, k: nat) {
    (k == 0 && d == d0) || Wrote(sb, d0, d, i, off, src, k)
  }

  /** A state between two operations, and who owns the blocks. */
  datatype Stage = Stage(d: Fs, owner: map<nat, Slot>)

  /** A good file system, every inode written back, with the first k bytes written. */
  ghost predicate StageOk(sb: Super, d0: Fs, s: Stage, i: nat, off: nat, src: seq<Byte>, k: nat) {
    FsOk(sb, s.d, s.owner) && Clean(sb, s.d, sb.ninodes) && k <= |src| && Done(sb, d0, s.d, i, off, src, k)
  }

  /** CHUNK bytes after each operation but the last, and done bytes after that. */
  ghost predicate Staged(sb: Super, d0: Fs, stages: seq<Stage>, i: nat, off: nat, src: seq<Byte>, done: nat) {
    forall j: nat :: j < |stages| ==> StageOk(sb, d0, stages[j], i, off, src, if j < |stages| - 1 then j * CHUNK
        else done)
  }

  /** How far filewrite is: in state s, with done bytes written in operations that wrote ops. */
  ghost predicate Progress(sb: Super, d0: Fs, s: Stage, i: nat, off: nat, src: seq<Byte>, done: nat,
                           ops: seq<seq<Write>>, stages: seq<Stage>) {
    && StageOk(sb, d0, s, i, off, src, done) && SmallOperations(sb, ops)
    && |stages| == |ops| + 1 && stages[0].d == d0 && stages[|ops|] == s && Staged(sb, d0, stages, i, off, src, done)
    && LinkedStages(stages, ops)
  }

  /** No operation writes more than seven blocks. */
  ghost predicate SmallOperations(sb: Super, ops: seq<seq<Write>>) {
    sb.size <= BPB ==> forall us :: us in ops ==> |Targets(us)| <= 7
  }

  /** Each operation makes the next state of the one before it. */
  ghost predicate LinkedStages(stages: seq<Stage>, ops: seq<seq<Write>>) {
    && |stages| == |ops| + 1
    && forall j: nat :: j < |ops| ==> stages[j + 1].d.blocks == Replay(stages[j].d.blocks, ops[j])
  }

  /** filewrite is about to write what is left after k bytes. */
  ghost predicate Between(sb: Super, d0: Fs, s: Stage, i: nat, off: nat, src: seq<Byte>, good: nat, k: nat,
                          ops: seq<seq<Write>>, stages: seq<Stage>) {
    && k <= |src| && (k > 0 ==> k <= good) && (k < |src| ==> k == |ops| * CHUNK)
    && Progress(sb, d0, s, i, off, src, k, ops, stages)
  }

  /** filewrite has ended after done bytes. */
  ghost predicate Ended(sb: Super, d0: Fs, s: Stage, i: nat, off: nat, src: seq<Byte>, good: nat, done: nat,
                        ops: seq<seq<Write>>, stages: seq<Stage>) {
    && done <= |src| && (done > 0 ==> done <= good) && Progress(sb, d0, s, i, off, src, done, ops, stages)
    && (done < |src| ==> ops != [] && EndsShort(sb, s.d, i, off, |src|, good, (|ops| - 1) * CHUNK, done))
  }

  /** Before the first operation. */
  ghost function FirstStage(sb: Super, d: Fs, owner: map<nat, Slot>, i: nat, off: nat, src: seq<Byte>): (r: seq<Stage>)
    requires FsOk(sb, d, owner) && Clean(sb, d, sb.ninodes)
    ensures Progress(sb, d, Stage(d, owner), i, off, src, 0, [], r)
  {
    [Stage(d, owner)]
  }

  lemma StagedMore(sb: Super, d0: Fs, stages: seq<Stage>, s: Stage, i: nat, off: nat, src: seq<Byte>, k: nat, done: nat)
    requires Staged(sb, d0, stages, i, off, src, k) && stages != [] && k == (|stages| - 1) * CHUNK
    requires StageOk(sb, d0, s, i, off, src, done)
    ensures Staged(sb, d0, stages + [s], i, off, src, done)
  {
    var r := stages + [s];
    forall j: nat | j < |r|
      ensures StageOk(sb, d0, r[j], i, off, src, if j < |r| - 1 then j * CHUNK else done)
    {
      if j < |stages| {
        assert StageOk(sb, d0, stages[j], i, off, src, if j < |stages| - 1 then j * CHUNK else k);
      }
    }
  }

  lemma SmallMore(sb: Super, ops: seq<seq<Write>>, us: seq<Write>)
    requires SmallOperations(sb, ops) && SmallOperations(sb, [us])
    ensures SmallOperations(sb, ops + [us])
  {
    assert us in [us];
  }

  lemma LinkedMore(stages: seq<Stage>, ops: seq<seq<Write>>, s: Stage, us: seq<Write>)
    requires LinkedStages(stages, ops) && s.d.blocks == Replay(stages[|ops|].d.blocks, us)
    ensures LinkedStages(stages + [s], ops + [us])
  {}

  /** One operation more. */
  lemma MoreProgress(sb: Super, d0: Fs, stages: seq<Stage>, s: Stage, i: nat, off: nat, src: seq<Byte>, k: nat,
                     done: nat, ops: seq<seq<Write>>, us: seq<Write>)
    requires stages != [] && Progress(sb, d0, stages[|stages| - 1], i, off, src, k, ops, stages) && k == |ops| * CHUNK
    requires StageOk(sb, d0, s, i, off, src, done) && SmallOperations(sb, [us])
    requires s.d.blocks == Replay(stages[|stages| - 1].d.blocks, us)
    ensures Progress(sb, d0, s, i, off, src, done, ops + [us], stages + [s])
  {
    StagedMore(sb, d0, stages, s, i, off, src, k, done);
    SmallMore(sb, ops, us);
    LinkedMore(stages, ops, s, us);
  }

  /** After one more operation. */
  lemma AfterOperation(sb: Super, d0: Fs, s: Stage, i: nat, off: nat, at: nat, src: seq<Byte>, good: nat, left: nat,
                       k: nat, n1: nat, r: int, done: nat, ops: seq<seq<Write>>, stages: seq<Stage>, us: seq<Write>)
    requires k < |src| && n1 == ChunkSize(|src| - k) && at == off + k && left == (if good > k then good - k else 0)
    requires stages != [] && Between(sb, d0, stages[|stages| - 1], i, off, src, good, k, ops, stages)
    requires WriteReturns(sb, s.d, i, at, n1, left, r) && done == if r > 0 then k + r else k
    requires StageOk(sb, d0, s, i, off, src, done) && SmallOperations(sb, [us])
    requires s.d.blocks == Replay(stages[|stages| - 1].d.blocks, us)
    ensures if r == n1 then Between(sb, d0, s, i, off, src, good, done, ops + [us], stages + [s])
            else done < |src| && Ended(sb, d0, s, i, off, src, good, done, ops + [us], stages + [s])
  {
    OperationEnds(sb, s.d, i, off, |src|, good, k, at, n1, left, r, done);
    MoreProgress(sb, d0, stages, s, i, off, src, k, done, ops, us);
  }

  /** A write followed by a write of what comes next is one write. */
  lemma Append(sb: Super, d0: Fs, d: Fs, d': Fs, i: nat, off: nat, src: seq<Byte>, k: nat, n: nat, r: nat)
    requires k + n <= |src| && r <= n && i < sb.ninodes
    requires Wrote(sb, d, d', i, off + k, src[k..k + n], r) && Wrote(sb, d0, d, i, off, src, k)
    ensures Wrote(sb, d0, d', i, off, src, k + r)
  {
    forall j: nat, o: nat | j < sb.ninodes && o < MAXFILE * BSIZE
      ensures ByteAt(sb, d', j, o) == if j == i && off <= o < off + k + r then src[o - off] else ByteAt(sb, d0, j, o)
    {
      assert ByteAt(sb, d, j, o) == if j == i && off <= o < off + k then src[o - off] else ByteAt(sb, d0, j, o);
    }
    forall j: nat | j < sb.ninodes && j != i ensures Current(sb, d', j) == Current(sb, d0, j) {
      assert Current(sb, d', j) == Current(sb, d, j);
    }
  }

  lemma AppendDone(sb: Super, d0: Fs, d: Fs, d': Fs, i: nat, off0: nat, off: nat, src: seq<Byte>, k: nat, n: nat,
                   r: nat)
    returns (done: nat)
    requires k + n <= |src| && r <= n && i < sb.ninodes && off == off0 + k
    requires Wrote(sb, d, d', i, off, src[k..k + n], r) && Done(sb, d0, d, i, off0, src, k)
    ensures done == k + r && Done(sb, d0, d', i, off0, src, done)
  {
    done := k + r;
    if Wrote(sb, d0, d, i, off0, src, k) {
      Append(sb, d0, d, d', i, off0, src, k, n, r);
    } else {
      forall j: nat, o: nat | j < sb.ninodes && o < MAXFILE * BSIZE
        ensures ByteAt(sb, d', j, o) == if j == i && off0 <= o < off0 + r then src[o - off0] else ByteAt(sb, d0, j, o)
      {
      }
    }
  }

  lemma {:induction false} FewElements(bs: set<nat>, xs: seq<int>)
    requires forall b :: b in bs ==> b in xs
    ensures |bs| <= |xs|
  {
    if xs == [] {
      assert bs == {};
    } else {
      FewElements(bs - {xs[0]}, xs[1..]);
    }
  }

  /** The blocks lo .. hi of file i. */
  function DataBlocks(sb: Super, d: Fs, i: nat, lo: nat, hi: nat): (xs: seq<int>)
    requires Sized(sb, d) && i < sb.ninodes && lo <= hi <= MAXFILE
    ensures |xs| == hi - lo
  {
    seq(hi - lo, q requires 0 <= q < hi - lo => AddrAt(sb, d, i, DataSlot(lo + q)))
  }

  lemma DataInBlocks(sb: Super, d: Fs, i: nat, lo: nat, hi: nat, b: nat)
    requires IsData(sb, d, i, lo, hi, b) && lo <= hi
    ensures b in DataBlocks(sb, d, i, lo, hi)
  {
    var bn: nat :| lo <= bn < hi && AddrAt(sb, d, i, DataSlot(bn)) == b;
    assert DataBlocks(sb, d, i, lo, hi)[bn - lo] == b;
  }

  /** With one bitmap block, a write to at most four blocks logs at most seven. */
  lemma FewLogged(sb: Super, d: Fs, bs: set<nat>, i: nat, lo: nat, hi: nat)
    requires LogsWrite(sb, d, bs, i, lo, hi) && lo <= hi <= MAXFILE && hi <= lo + 4 && sb.size <= BPB
    ensures |bs| <= 7
  {
    var meta: seq<int> := [sb.bmapstart, InodeBlock(sb, i), AddrAt(sb, d, i, NDIRECT)];
    var xs := meta + DataBlocks(sb, d, i, lo, hi);
    assert meta[0] in xs && meta[1] in xs && meta[2] in xs;
    forall b | b in bs ensures b in xs {
      if IsData(sb, d, i, lo, hi, b) { DataInBlocks(sb, d, i, lo, hi, b); } else { assert b in meta; }
    }
    FewElements(bs, xs);
  }
}
