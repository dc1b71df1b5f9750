/** An empty file system as mkfs makes it (mkfs/mkfs.c). */
module FsFormat {
  import opened Blocks
  import opened FsBits
  import opened FsDisk
  import opened FsOwn
  import opened FsFiles

  lemma {:induction false} NoBit(k: nat)
    ensures !TestBit(0, k)
  {
    if k > 0 { NoBit(k - 1); }
  }

  lemma ZeroBit(j: nat)
    requires j < BPB
    ensures !BlockBit(ZERO, j)
  {
    assert ZERO[j / 8] == 0;
    NoBit(j % 8);
  }

  /** mkfs's balloc: a bitmap block with the first used blocks marked. */
  method BitmapBlock(used: nat) returns (x: Block)
    requires used < BPB
    ensures forall j: nat :: j < BPB ==> BlockBit(x, j) == (j < used)
  {
    x := ZERO;
    forall j: nat | j < BPB
      ensures !BlockBit(x, j)
    {
      ZeroBit(j);
    }
    var i := 0;
    while i < used
      invariant i <= used && forall j: nat :: j < BPB ==> BlockBit(x, j) == (j < i)
    {
      forall j: nat | j < BPB
        ensures BlockBit(PutBlockBit(x, i, true), j) == (j < i + 1)
      {
        PutBlockBitAt(x, i, true, j);
      }
      x := PutBlockBit(x, i, true);
      i := i + 1;
    }
  }

  /** All blocks zero but the bitmap. */
  function Formatted(sb: Super, x: Block): (d: Fs)
    requires Layout(sb)
  {
    Fs(seq(sb.size, _ => ZERO)[sb.bmapstart := x], map[])
  }

  lemma NoInodes(sb: Super, x: Block, i: nat)
    requires Layout(sb) && i < sb.ninodes
    ensures Sized(sb, Formatted(sb, x))
    ensures Current(sb, Formatted(sb, x), i) == Inode(0, 0, 0, 0, 0, seq(NDIRECT + 1, _ => 0))
  {
    var d := Formatted(sb, x);
    assert d.blocks[InodeBlock(sb, i)] == ZERO;
    forall k: nat | k < WORDS
      ensures GetWord(ZERO, k) == 0
    {
      ZeroWord(k);
    }
    var at := i % IPB * INODE_WORDS;
    var ws := GetWords(ZERO, at, INODE_WORDS);
    assert forall k: nat :: k < INODE_WORDS ==> ws[k] == 0;
    assert ws[3..] == seq(NDIRECT + 1, _ => 0);
  }

  lemma FormattedMarks(sb: Super, x: Block, b: nat)
    requires Layout(sb) && sb.datastart < BPB && (forall j: nat :: j < BPB ==>
        BlockBit(x, j) == (j < sb.datastart)) && b < sb.size
    ensures Marked(sb, Formatted(sb, x), b) <==> b < sb.datastart
  {
    if b / BPB != 0 { ZeroBit(b % BPB); }
  }

  /** What mkfs leaves is a good file system: nothing is in use but the metadata. */
  lemma FormattedOk(sb: Super, x: Block)
    requires Layout(sb) && sb.datastart < BPB && forall j: nat :: j < BPB ==> BlockBit(x, j) == (j < sb.datastart)
    ensures FsOk(sb, Formatted(sb, x), map[])
  {
    var d := Formatted(sb, x);
    forall i: nat, k: nat | i < sb.ninodes && k < NSLOT
      ensures AddrAt(sb, d, i, k) == 0
    {
      NoInodes(sb, x, i);
    }
    forall i: nat | i < sb.ninodes
      ensures InodeOk(sb, d, i)
    {
      NoInodes(sb, x, i);
    }
    forall b: nat | b < sb.size
      ensures MarkOk(sb, d, map[], {}, b)
    {
      FormattedMarks(sb, x, b);
    }
    assert MarksOk(sb, d, map[], {});
    assert SlotsOk(sb, d, map[], sb.ninodes);
  }
}
