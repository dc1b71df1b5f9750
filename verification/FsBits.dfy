/** Bits of bytes, and the free block bitmap as bits of blocks. */
module FsBits {
  import opened Common
  import opened Blocks

  const BPB: nat := 8192  // bitmap bits per block

  /** (x & (1 << k)) != 0. */
  predicate TestBit(x: nat, k: nat) {
    if k == 0 then x % 2 == 1 else TestBit(x / 2, k - 1)
  }

  /** x | (1 << k) if on, x & ~(1 << k) if not. */
  function PutBit(x: nat, k: nat, on: bool): (r: nat) {
    if k == 0 then x / 2 * 2 + (if on then 1 else 0) else x % 2 + 2 * PutBit(x / 2, k - 1, on)
  }

  function Pow2(n: nat): (r: nat)
    ensures r > 0
  {
    if n == 0 then 1 else 2 * Pow2(n - 1)
  }

  lemma {:induction false} PutBitBound(x: nat, k: nat, on: bool, n: nat)
    requires k < n && x < Pow2(n)
    ensures PutBit(x, k, on) < Pow2(n)
  {
    if k > 0 { PutBitBound(x / 2, k - 1, on, n - 1); }
  }

  lemma {:induction false} PutTestBit(x: nat, k: nat, on: bool, j: nat)
    ensures TestBit(PutBit(x, k, on), j) == if j == k then on else TestBit(x, j)
  {
    if k > 0 && j > 0 { PutTestBit(x / 2, k - 1, on, j - 1); }
  }

  function PutByteBit(x: Byte, k: nat, on: bool): (r: Byte)
    requires k < 8
  {
    assert Pow2(8) == 256 by { assert Pow2(4) == 16; }
    PutBitBound(x, k, on, 8);
    PutBit(x, k, on)
  }

  // ----- one bitmap block -----

  /** Bit i of a bitmap block: bit i % 8 of byte i / 8. */
  predicate BlockBit(b: Block, i: nat)
    requires i < BPB
  {
    TestBit(b[i / 8], i % 8)
  }

  function PutBlockBit(b: Block, i: nat, on: bool): (r: Block)
    requires i < BPB
  {
    b[i / 8 := PutByteBit(b[i / 8], i % 8, on)]
  }

  lemma PutBlockBitAt(b: Block, i: nat, on: bool, j: nat)
    requires i < BPB && j < BPB
    ensures BlockBit(PutBlockBit(b, i, on), j) == if j == i then on else BlockBit(b, j)
  {
    PutTestBit(b[i / 8], i % 8, on, j % 8);
  }
}
