/** Disk blocks: BSIZE bytes, read either byte by byte or as an array of
    little-endian 32-bit words (the layout of the log header, of indirect
    blocks and of on-disk inodes). */
module Blocks {
  import opened Common

  const BSIZE := 1024
  const WORDS := 256  // BSIZE / sizeof(uint)

  type Word = x: int | 0 <= x < 0x1_0000_0000

  type Block = b: seq<Byte> | |b| == BSIZE witness Zeros(BSIZE)

  const ZERO: Block := Zeros(BSIZE)

  function Zeros(n: nat): (z: seq<Byte>)
    ensures |z| == n && forall i :: 0 <= i < n ==> z[i] == 0
  {
    seq(n, _ => 0)
  }

  /** ((uint*)data)[i] on a little-endian machine. */
  function GetWord(b: Block, i: nat): (w: Word)
    requires i < WORDS
  {
    var b0: int, b1: int, b2: int, b3: int := b[4 * i], b[4 * i + 1], b[4 * i + 2], b[4 * i + 3];
    b0 + 0x100 * b1 + 0x1_0000 * b2 + 0x100_0000 * b3
  }

  /** ((uint*)data)[i] = w. */
  function PutWord(b: Block, i: nat, w: Word): (r: Block)
    requires i < WORDS
  {
    var w1 := w / 0x100;
    var w2 := w1 / 0x100;
    b[4 * i := w % 0x100][4 * i + 1 := w1 % 0x100][4 * i + 2 := w2 % 0x100][4 * i + 3 := w2 / 0x100]
  }

  /** A stored word reads back, and no other word of the block changes. */
  lemma GetPut(b: Block, i: nat, w: Word, j: nat)
    requires i < WORDS && j < WORDS
    ensures GetWord(PutWord(b, i, w), j) == if i == j then w else GetWord(b, j)
  {
    var r := PutWord(b, i, w);
    if i != j {
      assert 4 * j + 3 < 4 * i || 4 * i + 3 < 4 * j;
      assert r[4 * j] == b[4 * j] && r[4 * j + 1] == b[4 * j + 1];
      assert r[4 * j + 2] == b[4 * j + 2] && r[4 * j + 3] == b[4 * j + 3];
    }
  }

  /** Every word of a zeroed block is zero. */
  lemma ZeroWord(i: nat)
    requires i < WORDS
    ensures GetWord(ZERO, i) == 0
  {
    assert ZERO[4 * i] == 0;
  }
}
