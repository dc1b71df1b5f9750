/** The layout of the file system on disk (kernel/fs.h): superblock parameters,
    on-disk inodes, the bitmap, and direct and indirect block numbers. */
module FsDisk {
  import opened Common
  import opened Blocks
  import opened FsBits

  const NDIRECT: nat := 12
  const NINDIRECT: nat := 256
  const MAXFILE: nat := 268        // NDIRECT + NINDIRECT
  const IPB: nat := 16             // inodes per block
  const INODE_WORDS: nat := 16     // sizeof(struct dinode) / 4
  const NSLOT: nat := 269          // block numbers an inode can hold: direct, indirect, and indirect entries

  type Half = x: int | 0 <= x < 0x1_0000

  /** The fields of struct superblock that fs.c uses, and the first data block. */
  datatype Super = Super(size: nat, ninodes: nat, inodestart: nat, bmapstart: nat, datastart: nat)

  predicate Layout(sb: Super) {
    && 2 <= sb.inodestart && sb.inodestart + sb.ninodes / IPB + 1 <= sb.bmapstart
    && sb.bmapstart + sb.size / BPB + 1 <= sb.datastart <= sb.size < 0x1_0000_0000
  }

  // ----- inodes -----

  /** struct dinode, and the part of struct inode that is copied from it. Shorts
      are given by their bit patterns. */
  datatype InodeData = Inode(typ: Half, major: Half, minor: Half, nlink: Half, size: Word, addrs: seq<Word>)

  type Inode = n: InodeData | |n.addrs| == NDIRECT + 1 witness Inode(0, 0, 0, 0, 0, seq(NDIRECT + 1, _ => 0))

  /** The k-th 32-bit word of struct dinode. */
  function WordOf(n: Inode, k: nat): (w: Word)
    requires k < INODE_WORDS
  {
    if k == 0 then n.typ + 0x1_0000 * n.major
    else if k == 1 then n.minor + 0x1_0000 * n.nlink
    else if k == 2 then n.size
    else n.addrs[k - 3]
  }

  function Words(n: Inode): (ws: seq<Word>)
    ensures |ws| == INODE_WORDS
  {
    seq<Word>(INODE_WORDS, k requires 0 <= k < INODE_WORDS => WordOf(n, k))
  }

  function FromWords(ws: seq<Word>): (n: Inode)
    requires |ws| == INODE_WORDS
  {
    Inode(ws[0] % 0x1_0000, ws[0] / 0x1_0000, ws[1] % 0x1_0000, ws[1] / 0x1_0000, ws[2], ws[3..])
  }

  function GetWords(b: Block, at: nat, n: nat): (ws: seq<Word>)
    requires at + n <= WORDS
    ensures |ws| == n && forall k: nat :: k < n ==> ws[k] == GetWord(b, at + k)
  {
    seq<Word>(n, k requires 0 <= k < n => GetWord(b, at + k))
  }

  function PutWords(b: Block, at: nat, ws: seq<Word>): (r: Block)
    requires at + |ws| <= WORDS
    decreases |ws|
  {
    if ws == [] then b else PutWords(PutWord(b, at, ws[0]), at + 1, ws[1..])
  }

  lemma {:induction false} PutWordsAt(b: Block, at: nat, ws: seq<Word>, j: nat)
    requires at + |ws| <= WORDS && j < WORDS
    ensures GetWord(PutWords(b, at, ws), j) == if at <= j < at + |ws| then ws[j - at] else GetWord(b, j)
    decreases |ws|
  {
    if ws != [] {
      GetPut(b, at, ws[0], j);
      PutWordsAt(PutWord(b, at, ws[0]), at + 1, ws[1..], j);
    }
  }

  function InodeBlock(sb: Super, i: nat): (b: nat) { i / IPB + sb.inodestart }

  /** The i-th on-disk inode of a block. */
  function InodeIn(b: Block, i: nat): (n: Inode) {
    FromWords(GetWords(b, i % IPB * INODE_WORDS, INODE_WORDS))
  }

  function PutInode(b: Block, i: nat, n: Inode): (r: Block) {
    PutWords(b, i % IPB * INODE_WORDS, Words(n))
  }

  lemma WordsRoundTrip(n: Inode)
    ensures FromWords(Words(n)) == n
  {
    assert Words(n)[3..] == n.addrs;
  }

  lemma PutWordsRange(b: Block, at: nat, ws: seq<Word>, to: nat, n: nat)
    requires at + |ws| <= WORDS && to + n <= WORDS
    ensures to == at && n == |ws| ==> GetWords(PutWords(b, at, ws), to, n) == ws
    ensures to + n <= at || at + |ws| <= to ==> GetWords(PutWords(b, at, ws), to, n) == GetWords(b, to, n)
  {
    var r := GetWords(PutWords(b, at, ws), to, n);
    forall k: nat | k < n
      ensures r[k] == if at <= to + k < at + |ws| then ws[to + k - at] else GetWords(b, to, n)[k]
    {
      PutWordsAt(b, at, ws, to + k);
    }
  }

  /** An inode written to its place reads back, and its neighbours stay. */
  lemma InodeRoundTrip(b: Block, i: nat, n: Inode, j: nat)
    requires i / IPB == j / IPB
    ensures InodeIn(PutInode(b, i, n), j) == if i == j then n else InodeIn(b, j)
  {
    PutWordsRange(b, i % IPB * INODE_WORDS, Words(n), j % IPB * INODE_WORDS, INODE_WORDS);
    WordsRoundTrip(n);
  }

  // ----- a file system -----

  /** The block contents that fs.c sees through the buffer cache, and the inodes
      held in memory (valid entries of itable). */
  datatype Fs = Fs(blocks: seq<Block>, cached: map<nat, Inode>)

  predicate Sized(sb: Super, d: Fs) {
    Layout(sb) && |d.blocks| == sb.size
  }

  function OnDisk(sb: Super, d: Fs, i: nat): (n: Inode)
    requires Sized(sb, d) && i < sb.ninodes
  {
    InodeIn(d.blocks[InodeBlock(sb, i)], i)
  }

  /** The inode as the kernel would use it. */
  function Current(sb: Super, d: Fs, i: nat): (n: Inode)
    requires Sized(sb, d) && i < sb.ninodes
  {
    if i in d.cached then d.cached[i] else OnDisk(sb, d, i)
  }

  /** The block number in slot k of inode i: slots 0..11 are direct, 12 is the
      indirect block, and 13.. are the entries of the indirect block. */
  function AddrAt(sb: Super, d: Fs, i: nat, k: nat): (a: Word)
    requires Sized(sb, d) && i < sb.ninodes && k < NSLOT
  {
    var n := Current(sb, d, i);
    if k <= NDIRECT then n.addrs[k]
    else if n.addrs[NDIRECT] == 0 || n.addrs[NDIRECT] >= sb.size then 0
    else GetWord(d.blocks[n.addrs[NDIRECT]], k - NDIRECT - 1)
  }

  /** The slot of the bn-th block of a file. */
  function DataSlot(bn: nat): (k: nat) { if bn < NDIRECT then bn else bn + 1 }

  /** Byte o of inode i's blocks; a byte of a missing block counts as zero. */
  function ByteAt(sb: Super, d: Fs, i: nat, o: nat): (x: Byte)
    requires Sized(sb, d) && i < sb.ninodes && o < MAXFILE * BSIZE
  {
    var a := AddrAt(sb, d, i, DataSlot(o / BSIZE));
    if a == 0 || a >= sb.size then 0 else d.blocks[a][o % BSIZE]
  }

  /** Is block b marked in use in the bitmap? */
  predicate Marked(sb: Super, d: Fs, b: nat)
    requires Sized(sb, d) && b < sb.size
  {
    BlockBit(d.blocks[sb.bmapstart + b / BPB], b % BPB)
  }

  // ----- what an operation writes -----

  /** A block given to log_write, with its contents then. */
  datatype Write = Write(n: nat, x: Block)

  /** The blocks after some writes. */
  function Replay(bs: seq<Block>, us: seq<Write>): (r: seq<Block>)
    ensures |r| == |bs|
  {
    if us == [] then bs
    else
      var r, u := Replay(bs, us[..|us| - 1]), us[|us| - 1];
      if u.n < |r| then r[u.n := u.x] else r
  }

  function Targets(us: seq<Write>): (ns: set<nat>) { set k | 0 <= k < |us| :: us[k].n }

  /** bs is what the writes us have made of base, and ns are the blocks they wrote. */
  ghost predicate Traces(base: seq<Block>, bs: seq<Block>, us: seq<Write>, ns: set<nat>) {
    bs == Replay(base, us) && ns == Targets(us)
  }

  lemma TargetsMore(us: seq<Write>, u: Write)
    ensures Targets(us + [u]) == Targets(us) + {u.n}
  {
    var vs := us + [u];
    forall n | n in Targets(us)
      ensures n in Targets(vs)
    {
      var k :| 0 <= k < |us| && us[k].n == n;
      assert vs[k].n == n;
    }
    assert vs[|us|] == u;
  }

  lemma TracesMore(base: seq<Block>, bs: seq<Block>, us: seq<Write>, ns: set<nat>, b: nat, x: Block)
    requires Traces(base, bs, us, ns) && b < |bs|
    ensures Traces(base, bs[b := x], us + [Write(b, x)], ns + {b})
  {
    assert (us + [Write(b, x)])[..|us|] == us;
    TargetsMore(us, Write(b, x));
  }
}
