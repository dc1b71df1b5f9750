/** Who owns which block: every block number held by an inode is in the data
    area, is marked in the bitmap, and is held in one place only; and every marked
    data block is held somewhere. */
module FsOwn {
  import opened Blocks
  import opened FsBits
  import opened FsDisk

  datatype Slot = Slot(i: nat, k: nat)

  ghost predicate SlotOk(sb: Super, d: Fs, owner: map<nat, Slot>, i: nat, k: nat)
    requires Sized(sb, d) && i < sb.ninodes && k < NSLOT
  {
    var a := AddrAt(sb, d, i, k);
    a != 0 ==> sb.datastart <= a < sb.size && a in owner && owner[a] == Slot(i, k)
  }

  ghost predicate OwnerOk(sb: Super, d: Fs, owner: map<nat, Slot>, skip: nat, b: nat)
    requires Sized(sb, d)
  {
    b in owner ==>
      && sb.datastart <= b < sb.size && owner[b].i < sb.ninodes && owner[b].i != skip && owner[b].k < NSLOT
      && AddrAt(sb, d, owner[b].i, owner[b].k) == b
  }

  ghost predicate MarkOk(sb: Super, d: Fs, owner: map<nat, Slot>, extra: set<nat>, b: nat)
    requires Sized(sb, d) && b < sb.size
  {
    && (Marked(sb, d, b) <==> b < sb.datastart || b in owner || b in extra)
    && (b in extra ==> sb.datastart <= b && b !in owner)
  }

  /** The blocks in extra are marked but not owned, and inode skip owns nothing
      (whatever its slots say); sb.ninodes for skip means no inode. */
  ghost predicate Own(sb: Super, d: Fs, owner: map<nat, Slot>, extra: set<nat>, skip: nat) {
    SlotsOk(sb, d, owner, skip) && MarksOk(sb, d, owner, extra)
  }

  ghost predicate SlotsOk(sb: Super, d: Fs, owner: map<nat, Slot>, skip: nat) {
    && Sized(sb, d)
    && (forall i: nat, k: nat :: i < sb.ninodes && i != skip && k < NSLOT ==> SlotOk(sb, d, owner, i, k))
    && (forall b: nat :: OwnerOk(sb, d, owner, skip, b))
  }

  ghost predicate MarksOk(sb: Super, d: Fs, owner: map<nat, Slot>, extra: set<nat>) {
    && Sized(sb, d)
    && (forall b: nat :: b < sb.size ==> MarkOk(sb, d, owner, extra, b))
    && (forall b :: b in extra ==> b < sb.size)
  }

  // ----- single changes -----

  function PutBlock(d: Fs, b: nat, x: Block): (r: Fs)
    requires b < |d.blocks|
  {
    d.(blocks := d.blocks[b := x])
  }

  function PutMark(sb: Super, d: Fs, b: nat, on: bool): (r: Fs)
    requires Sized(sb, d) && b < sb.size
  {
    var m := sb.bmapstart + b / BPB;
    PutBlock(d, m, PutBlockBit(d.blocks[m], b % BPB, on))
  }

  function Allocated(sb: Super, d: Fs, b: nat): (r: Fs)
    requires Sized(sb, d) && b < sb.size
  {
    PutBlock(PutMark(sb, d, b, true), b, ZERO)
  }

  function SetAddr(d: Fs, i: nat, k: nat, b: Word): (r: Fs)
    requires i in d.cached && k <= NDIRECT
  {
    d.(cached := d.cached[i := d.cached[i].(addrs := d.cached[i].addrs[k := b])])
  }

  function SetEntry(d: Fs, a: nat, e: nat, b: Word): (r: Fs)
    requires a < |d.blocks| && e < NINDIRECT
  {
    PutBlock(d, a, PutWord(d.blocks[a], e, b))
  }

  /** iupdate(ip). */
  function Updated(sb: Super, d: Fs, i: nat): (r: Fs)
    requires Sized(sb, d) && i < sb.ninodes && i in d.cached
  {
    PutBlock(d, InodeBlock(sb, i), PutInode(d.blocks[InodeBlock(sb, i)], i, d.cached[i]))
  }

  // ----- what does not change -----

  /** The same inodes with the same block numbers and the same bytes. */
  ghost predicate SameFiles(sb: Super, d: Fs, d': Fs) {
    && Sized(sb, d) && Sized(sb, d')
    && (forall i: nat :: i < sb.ninodes ==> Current(sb, d', i) == Current(sb, d, i))
    && (forall i: nat, k: nat :: i < sb.ninodes && k < NSLOT ==> AddrAt(sb, d', i, k) == AddrAt(sb, d, i, k))
    && (forall i: nat, o: nat :: i < sb.ninodes && o < MAXFILE * BSIZE ==> ByteAt(sb, d', i, o) == ByteAt(sb, d, i, o))
  }

  /** Writing a block that is not an inode block changes an inode's block numbers
      only if it is the inode's indirect block. */
  lemma AddrFrame(sb: Super, d: Fs, b: nat, x: Block, i: nat, k: nat)
    requires Sized(sb, d) && b < sb.size && i < sb.ninodes && k < NSLOT && sb.bmapstart <= b
    requires k > NDIRECT ==> AddrAt(sb, d, i, NDIRECT) != b
    ensures Current(sb, PutBlock(d, b, x), i) == Current(sb, d, i)
    ensures AddrAt(sb, PutBlock(d, b, x), i, k) == AddrAt(sb, d, i, k)
  {}

  lemma MarkFrame(sb: Super, d: Fs, b: nat, x: Block, c: nat)
    requires Sized(sb, d) && b < sb.size && c < sb.size && sb.datastart <= b
    ensures Marked(sb, PutBlock(d, b, x), c) == Marked(sb, d, c)
  {}

  lemma PutMarkAt(sb: Super, d: Fs, b: nat, on: bool, c: nat)
    requires Sized(sb, d) && b < sb.size && c < sb.size
    ensures Marked(sb, PutMark(sb, d, b, on), c) == if c == b then on else Marked(sb, d, c)
  {
    if b / BPB == c / BPB {
      PutBlockBitAt(d.blocks[sb.bmapstart + b / BPB], b % BPB, on, c % BPB);
    }
  }

  lemma PutMarkFiles(sb: Super, d: Fs, b: nat, on: bool)
    requires Sized(sb, d) && b < sb.size
    requires forall i: nat, k: nat :: i < sb.ninodes && k < NSLOT ==> AddrInData(sb, d, i, k)
    ensures SameFiles(sb, d, PutMark(sb, d, b, on))
  {
    var m := sb.bmapstart + b / BPB;
    var x := PutBlockBit(d.blocks[m], b % BPB, on);
    var d' := PutMark(sb, d, b, on);
    forall i: nat, k: nat | i < sb.ninodes && k < NSLOT
      ensures Current(sb, d', i) == Current(sb, d, i) && AddrAt(sb, d', i, k) == AddrAt(sb, d, i, k)
    {
      assert AddrInData(sb, d, i, NDIRECT);
      AddrFrame(sb, d, m, x, i, k);
    }
    forall i: nat | i < sb.ninodes ensures Current(sb, d', i) == Current(sb, d, i) { AddrFrame(sb, d, m, x, i, 0); }
    forall i: nat, o: nat | i < sb.ninodes && o < MAXFILE * BSIZE
      ensures ByteAt(sb, d', i, o) == ByteAt(sb, d, i, o)
    {
      assert AddrInData(sb, d, i, DataSlot(o / BSIZE));
    }
  }

  ghost predicate AddrInData(sb: Super, d: Fs, i: nat, k: nat)
    requires Sized(sb, d) && i < sb.ninodes && k < NSLOT
  {
    AddrAt(sb, d, i, k) != 0 ==> sb.datastart <= AddrAt(sb, d, i, k) < sb.size
  }
}
