/** What the operations of the file system mean for files as byte sequences. */
module FsTheorems {
  import opened Common
  import opened Blocks
  import opened FsDisk
  import opened FsOwn
  import opened FsSteps
  import opened FsFiles

  // ----- ownership -----

  /** No block belongs to two places, and every block in use is marked. */
  lemma NoSharing(sb: Super, d: Fs, owner: map<nat, Slot>, i: nat, k: nat, j: nat, l: nat)
    requires FsOk(sb, d, owner) && i < sb.ninodes && j < sb.ninodes && k < NSLOT && l < NSLOT && (i != j || k != l)
    requires AddrAt(sb, d, i, k) != 0
    ensures AddrAt(sb, d, i, k) != AddrAt(sb, d, j, l)
    ensures sb.datastart <= AddrAt(sb, d, i, k) < sb.size && Marked(sb, d, AddrAt(sb, d, i, k))
  {
    assert SlotOk(sb, d, owner, i, k) && SlotOk(sb, d, owner, j, l);
    assert MarkOk(sb, d, owner, {}, AddrAt(sb, d, i, k));
  }

  /** No block is lost: a marked data block is in use somewhere. */
  lemma NoLeak(sb: Super, d: Fs, owner: map<nat, Slot>, b: nat)
    requires FsOk(sb, d, owner) && sb.datastart <= b < sb.size && Marked(sb, d, b)
    ensures exists i: nat, k: nat :: i < sb.ninodes && k < NSLOT && AddrAt(sb, d, i, k) == b
  {
    assert MarkOk(sb, d, owner, {}, b) && OwnerOk(sb, d, owner, sb.ninodes, b);
    assert AddrAt(sb, d, owner[b].i, owner[b].k) == b;
  }

  /** Once every inode is written back, the disk alone has the same files. */
  lemma SyncedSurvives(sb: Super, d: Fs, owner: map<nat, Slot>)
    requires FsOk(sb, d, owner) && Clean(sb, d, sb.ninodes)
    ensures FsOk(sb, Fs(d.blocks, map[]), owner) && SameFiles(sb, d, Fs(d.blocks, map[]))
  {
    var d' := Fs(d.blocks, map[]);
    forall i: nat | i < sb.ninodes ensures Current(sb, d', i) == Current(sb, d, i) {}
    assert SameFiles(sb, d, d');
    forall b: nat | b < sb.size ensures MarkOk(sb, d', owner, {}, b) { assert MarkOk(sb, d, owner, {}, b); }
    OwnFrame(sb, d, d', owner, {}, {}, sb.ninodes);
    forall i: nat | i < sb.ninodes ensures InodeOk(sb, d', i) {
      assert InodeOk(sb, d, i);
      SameInodeOk(sb, d, d', i);
    }
  }

  // ----- files as byte sequences -----

  /** Replacing s[off..off + |src|] by src, and extending s if src reaches beyond it. */
  function Splice(s: seq<Byte>, off: nat, src: seq<Byte>): (r: seq<Byte>)
    requires off <= |s|
  {
    s[..off] + src + (if off + |src| < |s| then s[off + |src|..] else [])
  }

  lemma SpliceAt(s: seq<Byte>, off: nat, src: seq<Byte>, o: nat)
    requires off <= |s| && o < |Splice(s, off, src)|
    ensures off <= o < off + |src| ==> Splice(s, off, src)[o] == src[o - off]
    ensures !(off <= o < off + |src|) ==> o < |s| && Splice(s, off, src)[o] == s[o]
  {}

  /** A write of tot bytes is a splice into the file, and other files keep their bytes. */
  lemma WriteIsSplice(sb: Super, d: Fs, d': Fs, i: nat, off: nat, src: seq<Byte>, tot: nat)
    requires Wrote(sb, d, d', i, off, src, tot) && off <= d.cached[i].size <= MAXFILE * BSIZE
    ensures d'.cached[i].size <= MAXFILE * BSIZE && Content(sb, d', i) == Splice(Content(sb, d, i), off, src[..tot])
  {
    var s0, s, r := Content(sb, d, i), Content(sb, d', i), Splice(Content(sb, d, i), off, src[..tot]);
    assert |s| == |r|;
    forall o: nat | o < |s| ensures s[o] == r[o] {
      SpliceAt(s0, off, src[..tot], o);
      assert s[o] == ByteAt(sb, d', i, o);
      if o < |s0| { assert s0[o] == ByteAt(sb, d, i, o); }
    }
  }

  lemma OtherFilesKept(sb: Super, d: Fs, d': Fs, i: nat, off: nat, src: seq<Byte>, tot: nat, j: nat)
    requires Wrote(sb, d, d', i, off, src, tot) && j < sb.ninodes && j != i && Current(sb, d, j).size <= MAXFILE * BSIZE
    ensures Current(sb, d', j) == Current(sb, d, j) && Content(sb, d', j) == Content(sb, d, j)
  {
    var s, r := Content(sb, d', j), Content(sb, d, j);
    forall o: nat | o < |s| ensures s[o] == r[o] {
      assert s[o] == ByteAt(sb, d', j, o) && r[o] == ByteAt(sb, d, j, o);
    }
  }
}
