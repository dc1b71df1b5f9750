/** kernel/fs.c: the block allocator, inodes, and reading and writing files. */
module FileSystem {
  import opened Common
  import opened Blocks
  import opened FsBits
  import opened FsDisk
  import opened FsOwn
  import opened FsSteps
  import opened FsFiles
  import opened FsTrunc
  import opened FsFormat

  /** Bit bi of the bitmap block for blocks b.. is the mark of block b + bi. */
  lemma BitOf(b: nat, bi: nat)
    requires b % BPB == 0 && bi < BPB
    ensures (b + bi) / BPB == b / BPB && (b + bi) % BPB == bi
  {}

  /** CHUNK bytes lie in at most four blocks. */
  lemma FourBlocks(off: nat, n: nat)
    requires 0 < n <= CHUNK
    ensures off / BSIZE <= BlocksTo(off + n) <= off / BSIZE + 4
  {}

  /** Unsigned 32-bit addition. */
  lemma Wraps(a: Word, b: Word)
    ensures (a + b) % 0x1_0000_0000 == if a + b < 0x1_0000_0000 then a + b else a + b - 0x1_0000_0000
  {}

  /** The end of writei marks no block. */
  lemma FinishMarks(sb: Super, d: Fs, i: nat, size: Word)
    requires Sized(sb, d) && i < sb.ninodes && i in d.cached
    ensures forall b: nat :: b < sb.size ==> Marked(sb, Updated(sb, SetSize(d, i, size), i), b) == Marked(sb, d, b)
  {}

  lemma SliceJoin(c: seq<Byte>, a: nat, b: nat, e: nat)
    requires a <= b <= e <= |c|
    ensures c[a..b] + c[b..e] == c[a..e]
  {}

  class FileSystem {
    const sb: Super
    var blocks: seq<Block>          // as seen through the buffer cache
    var cached: map<nat, Inode>     // valid in-memory inodes
    ghost var owner: map<nat, Slot>
    ghost var logged: set<nat>      // blocks given to log_write in this operation
    ghost var base: seq<Block>      // the blocks when it began
    ghost var writes: seq<Write>    // what it has written since

    /** A disk as mkfs leaves it: every inode is free, and only metadata blocks are marked. */
    constructor Format(sb: Super)
      requires Layout(sb) && sb.datastart < BPB
      ensures Valid() && Synced() && Traced() && this.sb == sb && owner == map[] && logged == {}
      ensures forall i: nat :: i < sb.ninodes ==> Current(sb, D(), i).typ == 0
    {
      var x := BitmapBlock(sb.datastart);
      FormattedOk(sb, x);
      forall i: nat | i < sb.ninodes
        ensures Current(sb, Formatted(sb, x), i).typ == 0
      {
        NoInodes(sb, x, i);
      }
      this.sb, blocks, cached := sb, Formatted(sb, x).blocks, map[];
      owner, logged, base, writes := map[], {}, Formatted(sb, x).blocks, [];
    }

    /** Any good disk, with no inode in memory yet. */
    constructor Mount(sb: Super, blocks: seq<Block>, ghost owner: map<nat, Slot>)
      requires FsOk(sb, Fs(blocks, map[]), owner)
      ensures Valid() && Synced() && Traced()
      ensures this.sb == sb && this.blocks == blocks && this.owner == owner && cached == map[]
    {
      this.sb, this.blocks, cached := sb, blocks, map[];
      this.owner, logged, base, writes := owner, {}, blocks, [];
    }

    function D(): (d: Fs)
      reads this
    {
      Fs(blocks, cached)
    }

    ghost predicate Valid()
      reads this
    {
      FsOk(sb, D(), owner)
    }

    /** Every in-memory inode has been written back. */
    ghost predicate Synced()
      reads this
    {
      Clean(sb, D(), sb.ninodes)
    }

    /** The blocks are those at the start of the operation with its writes made to them. */
    ghost predicate Traced()
      reads this`base, this`blocks, this`writes, this`logged
    {
      Traces(base, blocks, writes, logged)
    }

    /** A write put the first tot bytes of src at off, and changed nothing else. */
    ghost predicate Wrote(d0: Fs, i: nat, off: nat, src: seq<Byte>, tot: nat)
      reads this
    {
      FsFiles.Wrote(sb, d0, D(), i, off, src, tot)
    }

    /** Inode i was emptied, its blocks freed, and nothing else changed. */
    ghost predicate Truncated(d0: Fs, o0: map<nat, Slot>, i: nat)
      reads this
    {
      FsTrunc.Truncated(sb, d0, D(), o0, i)
    }

    /** bread, change, log_write, brelse. */
    method Put(b: nat, x: Block)
      requires b < |blocks|
      requires Traced()
      modifies this`blocks, this`logged, this`writes
      ensures Traced()
      ensures D() == PutBlock(old(D()), b, x) && logged == old(logged) + {b}
    {
      TracesMore(base, blocks, writes, logged, b, x);
      blocks := blocks[b := x];
      logged, writes := logged + {b}, writes + [Write(b, x)];
    }

    // ----- blocks -----

    /** balloc's scan of one bitmap block. */
    static method FirstClear(x: Block, limit: nat) returns (bi: nat)
      requires limit <= BPB
      ensures bi <= limit && (forall c: nat :: c < bi ==> BlockBit(x, c))
      ensures bi < limit ==> !BlockBit(x, bi)
    {
      bi := 0;
      while bi < limit
        invariant bi <= limit && forall c: nat :: c < bi ==> BlockBit(x, c)
      {
        if !BlockBit(x, bi) { return; }
        bi := bi + 1;
      }
    }

    /** balloc's search: the first block that is not marked, or sb.size. */
    method FirstFree() returns (r: nat)
      requires Sized(sb, D())
      ensures r <= sb.size && (forall c: nat :: c < r ==> Marked(sb, D(), c))
      ensures r < sb.size ==> !Marked(sb, D(), r)
    {
      var b := 0;
      while b < sb.size
        invariant b % BPB == 0
        invariant forall c: nat :: c < b && c < sb.size ==> Marked(sb, D(), c)
      {
        var n := if sb.size - b < BPB then sb.size - b else BPB;
        var bi := FirstClear(blocks[sb.bmapstart + b / BPB], n);
        forall c: nat | b <= c < b + bi ensures Marked(sb, D(), c) { BitOf(b, c - b); }
        if bi < n {
          BitOf(b, bi);
          return b + bi;
        }
        b := b + BPB;
      }
      return sb.size;
    }

    method Balloc() returns (r: nat)
      requires Valid()
      requires Traced()
      modifies this`blocks, this`logged, this`writes
      ensures Traced()
      ensures r == 0 ==> D() == old(D()) && logged == old(logged) && forall b: nat :: b < sb.size ==> Marked(sb, D(), b)
      ensures r != 0 ==>
        && r < sb.size && !Marked(sb, old(D()), r) && (forall b: nat :: b < r ==> Marked(sb, old(D()), b))
        && D() == Allocated(sb, old(D()), r) && logged == old(logged) + {sb.bmapstart + r / BPB, r}
        && SameFiles(sb, old(D()), D())
    {
      r := FirstFree();
      if r == sb.size { return 0; }
      AllocOwn(sb, D(), owner, r);
      var m := sb.bmapstart + r / BPB;
      Put(m, PutBlockBit(blocks[m], r % BPB, true));
      Put(r, ZERO);
    }

    /** Freeing a block that is not marked is a panic. */
    method Bfree(b: nat)
      requires Sized(sb, D()) && b < sb.size && Marked(sb, D(), b)
      requires Traced()
      modifies this`blocks, this`logged, this`writes
      ensures Traced()
      ensures D() == PutMark(sb, old(D()), b, false) && logged == old(logged) + {sb.bmapstart + b / BPB}
    {
      var m := sb.bmapstart + b / BPB;
      Put(m, PutBlockBit(blocks[m], b % BPB, false));
    }

    // ----- inodes -----

    method SetCached(i: nat, n: Inode)
      modifies this`cached
      ensures D() == old(D()).(cached := old(cached)[i := n])
    {
      cached := cached[i := n];
    }

    method Iupdate(i: nat)
      requires Sized(sb, D()) && i < sb.ninodes && i in cached
      requires Traced()
      modifies this`blocks, this`logged, this`writes
      ensures Traced()
      ensures D() == Updated(sb, old(D()), i) && logged == old(logged) + {InodeBlock(sb, i)}
    {
      var m := InodeBlock(sb, i);
      Put(m, PutInode(blocks[m], i, cached[i]));
    }

    // ----- the block map of an inode -----

    /** bmap's allocation of a direct block (or of the indirect block). */
    method BmapDirect(i: nat, k: nat) returns (r: nat)
      requires Valid() && i in cached && k <= NDIRECT && AddrAt(sb, D(), i, k) == 0
      requires Traced()
      modifies this`blocks, this`cached, this`owner, this`logged, this`writes
      ensures Traced()
      ensures Valid()
      ensures r == 0 ==> D() == old(D()) && logged == old(logged) && forall b: nat :: b < sb.size ==> Marked(sb, D(), b)
      ensures r != 0 ==> Grown(sb, old(D()), D(), i, k, r) && IsBitmap(sb, sb.bmapstart + r / BPB)
                         && logged == old(logged) + {sb.bmapstart + r / BPB, r}
    {
      ghost var d := D();
      r := Balloc();
      if r != 0 {
        GrowDirect(sb, d, owner, i, k, r);
        cached := cached[i := cached[i].(addrs := cached[i].addrs[k := r])];
        owner := owner[r := Slot(i, k)];
      }
    }

    /** bmap's allocation of a block listed in the indirect block. */
    method BmapEntry(i: nat, e: nat) returns (r: nat)
      requires Valid() && i in cached && e < NINDIRECT
      requires AddrAt(sb, D(), i, NDIRECT) != 0 && AddrAt(sb, D(), i, NDIRECT + 1 + e) == 0
      requires Traced()
      modifies this`blocks, this`cached, this`owner, this`logged, this`writes
      ensures Traced()
      ensures Valid()
      ensures r == 0 ==> D() == old(D()) && logged == old(logged) && forall b: nat :: b < sb.size ==> Marked(sb, D(), b)
      ensures r != 0 ==> Grown(sb, old(D()), D(), i, NDIRECT + 1 + e, r) && IsBitmap(sb, sb.bmapstart + r / BPB)
                         && logged == old(logged) + {sb.bmapstart + r / BPB, r, AddrAt(sb, old(D()), i, NDIRECT)}
    {
      ghost var d := D();
      var a := cached[i].addrs[NDIRECT];
      r := Balloc();
      if r != 0 {
        GrowEntry(sb, d, owner, i, e, r);
        Put(a, PutWord(blocks[a], e, r));
        owner := owner[r := Slot(i, NDIRECT + 1 + e)];
      }
    }

    /** bmap's treatment of a block beyond the direct ones. */
    method BmapIndirect(i: nat, e: nat) returns (r: nat)
      requires Valid() && i in cached && e < NINDIRECT
      requires Traced()
      modifies this`blocks, this`cached, this`owner, this`logged, this`writes
      ensures Traced()
      ensures Valid() && Extends(sb, old(D()), D(), i) && AddrAt(sb, D(), i, NDIRECT + 1 + e) == r
      ensures r == 0 ==> forall b: nat :: b < sb.size ==> Marked(sb, D(), b)
      ensures AddrAt(sb, old(D()), i, NDIRECT + 1 + e) != 0 ==>
          D() == old(D()) && owner == old(owner) && logged == old(logged)
      ensures forall k: nat :: k < NSLOT && k != NDIRECT + 1 + e && k != NDIRECT ==>
                AddrAt(sb, D(), i, k) == AddrAt(sb, old(D()), i, k)
      ensures old(logged) <= logged && LogsFor(sb, logged - old(logged), r, AddrAt(sb, D(), i, NDIRECT))
    {
      ghost var d := D();
      ExtendsRefl(sb, d, i);
      var a := cached[i].addrs[NDIRECT];
      if a == 0 {
        a := BmapDirect(i, NDIRECT);
        if a == 0 { return 0; }
      }
      ghost var d1 := D();
      assert SlotOk(sb, d1, owner, i, NDIRECT) && AddrAt(sb, d1, i, NDIRECT) == a;
      r := GetWord(blocks[a], e);
      if r == 0 { r := BmapEntry(i, e); }
      ExtendsRefl(sb, d1, i);
      ExtendsTrans(sb, d, d1, D(), i);
    }

    /** A block of inode i, allocated if there is none, or 0 if the disk is full. */
    method Bmap(i: nat, bn: nat) returns (r: nat)
      requires Valid() && i in cached && bn < MAXFILE
      requires Traced()
      modifies this`blocks, this`cached, this`owner, this`logged, this`writes
      ensures Traced()
      ensures Valid() && Extends(sb, old(D()), D(), i) && AddrAt(sb, D(), i, DataSlot(bn)) == r
      ensures r == 0 ==> forall b: nat :: b < sb.size ==> Marked(sb, D(), b)
      ensures AddrAt(sb, old(D()), i, DataSlot(bn)) != 0 ==>
          D() == old(D()) && owner == old(owner) && logged == old(logged)
      ensures forall k: nat :: k < NSLOT && k != DataSlot(bn) && (k != NDIRECT || bn < NDIRECT) ==>
                AddrAt(sb, D(), i, k) == AddrAt(sb, old(D()), i, k)
      ensures old(logged) <= logged && LogsFor(sb, logged - old(logged), r, AddrAt(sb, D(), i, NDIRECT))
    {
      if bn < NDIRECT {
        ExtendsRefl(sb, D(), i);
        r := cached[i].addrs[bn];
        if r == 0 { r := BmapDirect(i, bn); }
      } else {
        r := BmapIndirect(i, bn - NDIRECT);
      }
    }

    /** bmap finds a block that is there and changes nothing. */
    method Lookup(i: nat, bn: nat) returns (r: nat)
      requires Valid() && i in cached && i < sb.ninodes && bn < MAXFILE && AddrAt(sb, D(), i, DataSlot(bn)) != 0
      requires Traced()
      modifies this`blocks, this`cached, this`owner, this`logged, this`writes
      ensures Traced()
      ensures D() == old(D()) && owner == old(owner) && logged == old(logged) && r == AddrAt(sb, D(), i, DataSlot(bn))
    {
      r := Bmap(i, bn);
    }

    // ----- reading and writing -----

    /** readi's loop. room is how many bytes the destination can take before
        either_copyout fails. */
    method ReadLoop(i: nat, off: nat, n: nat, room: nat) returns (r: int, dst: seq<Byte>)
      requires Valid() && i in cached && i < sb.ninodes && off + n <= cached[i].size <= MAXFILE * BSIZE
      requires Traced()
      modifies this`blocks, this`cached, this`owner, this`logged, this`writes
      ensures Traced()
      ensures D() == old(D()) && owner == old(owner) && logged == old(logged)
      ensures if n <= room then r == n && dst == Content(sb, D(), i)[off..off + n] else r == -1
    {
      ghost var c := Content(sb, D(), i);
      dst := [];
      var tot, at := 0, off;
      while tot < n
        invariant tot <= n && tot <= room && at == off + tot
        invariant D() == old(D()) && owner == old(owner) && logged == old(logged) && Traced()
        invariant dst == c[off..at]
      {
        var m, x := ReadOne(i, at, n - tot);
        if tot + m > room { return -1, dst; }
        SliceJoin(c, off, at, at + m);
        dst := dst + x;
        tot, at := tot + m, at + m;
      }
      r := tot;
    }

    /** One round of readi's loop: what is in the block that holds byte o, up to n bytes. */
    method ReadOne(i: nat, o: nat, n: nat) returns (m: nat, x: seq<Byte>)
      requires Valid() && i in cached && i < sb.ninodes && 0 < n && o + n <= cached[i].size <= MAXFILE * BSIZE
      requires Traced()
      modifies this`blocks, this`cached, this`owner, this`logged, this`writes
      ensures Traced()
      ensures D() == old(D()) && owner == old(owner) && logged == old(logged)
      ensures 0 < m <= n && x == Content(sb, D(), i)[o..o + m]
    {
      MappedBlock(sb, D(), owner, i, o);
      var addr := Lookup(i, o / BSIZE);
      m := if n < BSIZE - o % BSIZE then n else BSIZE - o % BSIZE;
      ReadRound(sb, D(), i, o, m, addr);
      x := blocks[addr][o % BSIZE..o % BSIZE + m];
    }

    /** readi: the n bytes at off, or as many as there are. */
    method Readi(i: nat, off: Word, n0: Word, room: nat) returns (r: int, dst: seq<Byte>)
      requires Valid() && i in cached
      requires Traced()
      modifies this`blocks, this`cached, this`owner, this`logged, this`writes
      ensures Traced()
      ensures D() == old(D()) && owner == old(owner) && logged == old(logged)
      ensures i < sb.ninodes && cached[i].size <= MAXFILE * BSIZE
      ensures off > cached[i].size || off + n0 >= 0x1_0000_0000 ==> r == 0 && dst == []
      ensures off <= cached[i].size && off + n0 < 0x1_0000_0000 ==>
                var n := if off + n0 > cached[i].size then cached[i].size - off else n0;
                if n <= room then r == n && dst == Content(sb, D(), i)[off..off + n] else r == -1
    {
      assert InodeOk(sb, D(), i);
      Wraps(off, n0);
      if off > cached[i].size || (off + n0) % 0x1_0000_0000 < off { return 0, []; }
      var n := n0;
      if off + n > cached[i].size { n := cached[i].size - off; }
      r, dst := ReadLoop(i, off, n, room);
    }

    /** The first tot bytes of a write of src at off have been made since state d0. */
    ghost predicate Writing(d0: Fs, i: nat, off: nat, src: seq<Byte>, tot: nat)
      reads this
    {
      Written(sb, d0, D(), i, off, src, tot) && MappedTo(sb, D(), i, off + tot)
    }

    /** Copies m bytes of the source into the block that holds byte off + tot. */
    method CopyIn(ghost d0: Fs, i: nat, off: nat, src: seq<Byte>, tot: nat, m: nat, addr: nat)
      requires Valid() && i in cached && Writing(d0, i, off, src, tot)
      requires 0 < m <= |src| - tot && off + |src| <= MAXFILE * BSIZE && m <= BSIZE - (off + tot) % BSIZE
      requires AddrAt(sb, D(), i, DataSlot((off + tot) / BSIZE)) == addr != 0
      requires Traced()
      modifies this`blocks, this`logged, this`writes
      ensures Traced()
      ensures Valid() && Grows(sb, old(D()), D(), i) && logged == old(logged) + {addr}
      ensures Writing(d0, i, off, src, tot + m)
      ensures AddrAt(sb, D(), i, DataSlot((off + tot) / BSIZE)) == addr
    {
      ghost var d := D();
      var p := off + tot;
      WriteRound(sb, d0, d, owner, i, off, src, tot, m);
      var x := Patch(blocks[addr], p % BSIZE, src[tot..tot + m]);
      DataWriteGrows(sb, d, owner, i, p / BSIZE, x);
      Put(addr, x);
      GrowsMapped(sb, d, D(), i, p);
      NextRound(sb, D(), i, p, m);
    }

    /** One round of writei's loop. good is how many bytes of the source can be read
        before either_copyin fails; m is 0 if the round fails. */
    method WriteOne(ghost d0: Fs, i: nat, off: nat, src: seq<Byte>, tot: nat, good: nat) returns (m: nat)
      requires Valid() && i in cached && Writing(d0, i, off, src, tot)
      requires tot < |src| && off + |src| <= MAXFILE * BSIZE
      requires Traced()
      modifies this`blocks, this`cached, this`owner, this`logged, this`writes
      ensures Traced()
      ensures Valid() && Grows(sb, old(D()), D(), i) && tot + m <= |src|
      ensures Writing(d0, i, off, src, tot + m)
      ensures if m == 0 then StopsAt(sb, D(), off, |src|, good, tot) else tot + m <= good
      ensures old(logged) <= logged
      ensures LogsWrite(sb, D(), logged - old(logged), i, (off + tot) / BSIZE, (off + tot) / BSIZE + 1)
    {
      var p := off + tot;
      ghost var d := D();
      var addr := Bmap(i, p / BSIZE);
      ghost var d1 := D();
      ExtendsWritten(sb, d0, d, d1, i, off, src, tot);
      GrowsMapped(sb, d, d1, i, p);
      if addr == 0 { return 0; }
      assert IsData(sb, d1, i, p / BSIZE, p / BSIZE + 1, addr);
      m := RoundSize(p, |src| - tot);
      if tot + m > good { return 0; }
      CopyIn(d0, i, off, src, tot, m, addr);
      GrowsTrans(sb, d, d1, D(), i);
      assert IsData(sb, D(), i, p / BSIZE, p / BSIZE + 1, addr);
    }

    /** writei's loop. */
    method WriteLoop(i: nat, off: nat, src: seq<Byte>, good: nat) returns (tot: nat)
      requires Valid() && i in cached && i < sb.ninodes && MappedTo(sb, D(), i, off) && off + |src| <= MAXFILE * BSIZE
      requires Traced()
      modifies this`blocks, this`cached, this`owner, this`logged, this`writes
      ensures Traced()
      ensures Valid() && Grows(sb, old(D()), D(), i) && tot <= |src|
      ensures Written(sb, old(D()), D(), i, off, src, tot) && MappedTo(sb, D(), i, off + tot)
      ensures (tot < |src| ==> StopsAt(sb, D(), off, |src|, good, tot)) && (tot > 0 ==> tot <= good)
      ensures old(logged) <= logged && LogsWrite(sb, D(), logged - old(logged), i, off / BSIZE, BlocksTo(off + |src|))
    {
      ghost var d0 := D();
      ExtendsRefl(sb, d0, i);
      tot := 0;
      while tot < |src|
        invariant Valid() && Traced() && Grows(sb, d0, D(), i) && tot <= |src| && (tot > 0 ==> tot <= good)
        invariant Writing(d0, i, off, src, tot)
        invariant old(logged) <= logged
        invariant LogsWrite(sb, D(), logged - old(logged), i, off / BSIZE, BlocksTo(off + |src|))
      {
        ghost var d := D();
        ghost var before := logged;
        var m := WriteOne(d0, i, off, src, tot, good);
        GrowsTrans(sb, d0, d, D(), i);
        var lo, hi := off / BSIZE, BlocksTo(off + |src|);
        LogsStay(sb, d, D(), before - old(logged), i, lo, hi, lo, hi);
        ExtendsRefl(sb, D(), i);
        LogsStay(sb, D(), D(), logged - before, i, (off + tot) / BSIZE, (off + tot) / BSIZE + 1, lo, hi);
        assert logged - old(logged) == (before - old(logged)) + (logged - before);
        if m == 0 { break; }
        tot := tot + m;
      }
    }

    /** An in-memory inode is changed and written back. */
    method StoreInode(i: nat, n: Inode)
      requires Sized(sb, D()) && i < sb.ninodes && i in cached
      requires Traced()
      modifies this`cached, this`blocks, this`logged, this`writes
      ensures Traced()
      ensures D() == Updated(sb, old(D()).(cached := old(cached)[i := n]), i)
    {
      SetCached(i, n);
      Iupdate(i);
    }

    method PutSize(i: nat, size: Word)
      requires Sized(sb, D()) && i < sb.ninodes && i in cached
      requires Traced()
      modifies this`cached, this`blocks, this`logged, this`writes
      ensures Traced()
      ensures D() == Updated(sb, SetSize(old(D()), i, size), i) && logged == old(logged) + {InodeBlock(sb, i)}
    {
      SetCached(i, cached[i].(size := size));
      Iupdate(i);
    }

    /** The end of writei: the new size, and iupdate. */
    method Finish(ghost d0: Fs, i: nat, off: nat, ghost src: seq<Byte>, tot: nat)
      requires Valid() && i < sb.ninodes && Grows(sb, d0, D(), i) && Clean(sb, d0, sb.ninodes)
      requires Written(sb, d0, D(), i, off, src, tot) && MappedTo(sb, D(), i, off + tot)
      requires Traced()
      modifies this`blocks, this`cached, this`owner, this`logged, this`writes
      ensures Traced()
      ensures Valid() && Synced() && Wrote(d0, i, off, src, tot)
      ensures forall k: nat :: k < NSLOT ==> AddrAt(sb, D(), i, k) == AddrAt(sb, old(D()), i, k)
      ensures forall b: nat :: b < sb.size ==> Marked(sb, D(), b) == Marked(sb, old(D()), b)
      ensures logged == old(logged) + {InodeBlock(sb, i)}
    {
      ghost var d := D();
      var size := if off + tot > cached[i].size then off + tot else cached[i].size;
      PutSize(i, size);
      FinishWrite(sb, d0, d, owner, i, off, src, tot, size);
      FinishMarks(sb, d, i, size);
    }

    /** writei, once the range is known to be good. */
    method WriteRange(i: nat, off: nat, src: seq<Byte>, good: nat) returns (r: nat)
      requires Valid() && Synced() && i in cached && i < sb.ninodes
      requires off <= cached[i].size && off + |src| <= MAXFILE * BSIZE
      requires Traced()
      modifies this`blocks, this`cached, this`owner, this`logged, this`writes
      ensures Traced()
      ensures Valid() && Synced() && r <= |src| && Wrote(old(D()), i, off, src, r)
      ensures (r < |src| ==> StopsAt(sb, D(), off, |src|, good, r)) && (r > 0 ==> r <= good)
      ensures old(logged) <= logged && LogsWrite(sb, D(), logged - old(logged), i, off / BSIZE, BlocksTo(off + |src|))
    {
      ghost var d0 := D();
      assert InodeOk(sb, d0, i);
      r := WriteLoop(i, off, src, good);
      ghost var d, bs := D(), logged;
      Finish(d0, i, off, src, r);
      LogsFinish(sb, d, D(), bs - old(logged), i, off / BSIZE, BlocksTo(off + |src|));
      assert logged - old(logged) <= (bs - old(logged)) + {InodeBlock(sb, i)};
    }

    /** writei: the bytes of src at off, or as many of them as there is room for. */
    method Writei(i: nat, off: Word, src: seq<Byte>, good: nat) returns (r: int)
      requires Valid() && Synced() && i in cached && i < sb.ninodes && |src| < 0x1_0000_0000
      requires Traced()
      modifies this`blocks, this`cached, this`owner, this`logged, this`writes
      ensures Traced()
      ensures Valid() && Synced() && old(logged) <= logged
      ensures -1 <= r <= |src| && (r == -1 <==> off > old(cached)[i].size || off + |src| > MAXFILE * BSIZE)
      ensures r == -1 ==> D() == old(D()) && owner == old(owner) && logged == old(logged)
      ensures r != -1 ==> Wrote(old(D()), i, off, src, r)
      ensures (-1 < r < |src| ==> StopsAt(sb, D(), off, |src|, good, r)) && (r > 0 ==> r <= good)
      ensures r != -1 ==> LogsWrite(sb, D(), logged - old(logged), i, off / BSIZE, BlocksTo(off + |src|))
    {
      Wraps(off, |src|);
      if off > cached[i].size || (off + |src|) % 0x1_0000_0000 < off { return -1; }
      if (off + |src|) % 0x1_0000_0000 > MAXFILE * BSIZE { return -1; }
      r := WriteRange(i, off, src, good);
    }

    // ----- truncation, allocation and freeing of inodes -----

    /** itrunc of inode i has had n turns since state d0. */
    ghost predicate Truncating(d0: Fs, o0: map<nat, Slot>, i: nat, n: nat)
      reads this
    {
      Trunc(sb, d0, D(), o0, i, n)
    }

    /** One round of itrunc's loop over the direct blocks. */
    method FreeDirect(i: nat, k: nat, ghost d0: Fs, ghost o0: map<nat, Slot>)
      requires FsOk(sb, d0, o0) && Truncating(d0, o0, i, k) && DirectGone(d0, D(), i, k)
      requires i < sb.ninodes && k < NDIRECT
      requires Traced()
      modifies this`blocks, this`cached, this`logged, this`writes
      ensures Traced()
      ensures Truncating(d0, o0, i, k + 1) && DirectGone(d0, D(), i, k + 1)
    {
      var a := cached[i].addrs[k];
      if a != 0 {
        DirectFreed(sb, d0, D(), o0, i, k);
        Bfree(a);
        cached := cached[i := cached[i].(addrs := cached[i].addrs[k := 0])];
      } else {
        DirectSkipped(sb, d0, D(), o0, i, k);
      }
    }

    /** itrunc's loop over the direct blocks. */
    method TruncDirect(i: nat, ghost d0: Fs, ghost o0: map<nat, Slot>)
      requires FsOk(sb, d0, o0) && D() == d0 && i in cached && i < sb.ninodes
      requires Traced()
      modifies this`blocks, this`cached, this`logged, this`writes
      ensures Traced()
      ensures Truncating(d0, o0, i, NDIRECT) && DirectGone(d0, D(), i, NDIRECT)
    {
      TruncStart(sb, d0, o0, i);
      assert DirectGone(d0, D(), i, 0);
      var k := 0;
      while k < NDIRECT
        invariant k <= NDIRECT && Truncating(d0, o0, i, k) && DirectGone(d0, D(), i, k) && Traced()
      {
        FreeDirect(i, k, d0, o0);
        k := k + 1;
      }
    }

    /** One round of that loop: entry n of the slots. */
    method TruncEntry(i: nat, a: nat, n: nat, ghost d0: Fs, ghost o0: map<nat, Slot>)
      requires FsOk(sb, d0, o0) && Truncating(d0, o0, i, n) && i in d0.cached
      requires i < sb.ninodes && NDIRECT <= n < NSLOT - 1
      requires d0.cached[i].addrs[NDIRECT] == a && sb.datastart <= a < sb.size
      requires Traced()
      modifies this`blocks, this`logged, this`writes
      ensures Traced()
      ensures Truncating(d0, o0, i, n + 1)
    {
      var e := GetWord(blocks[a], n - NDIRECT);
      assert AddrAt(sb, d0, i, SlotAt(n)) == e;
      if e != 0 {
        TruncFree(sb, d0, D(), o0, i, n);
        Bfree(e);
      } else {
        TruncSkip(sb, d0, D(), o0, i, n);
      }
    }

    /** itrunc's loop over the entries of the indirect block. */
    method TruncEntries(i: nat, a: nat, ghost d0: Fs, ghost o0: map<nat, Slot>)
      requires FsOk(sb, d0, o0) && Truncating(d0, o0, i, NDIRECT) && i in d0.cached && i < sb.ninodes
      requires d0.cached[i].addrs[NDIRECT] == a && sb.datastart <= a < sb.size
      requires Traced()
      modifies this`blocks, this`logged, this`writes
      ensures Traced()
      ensures Truncating(d0, o0, i, NSLOT - 1)
    {
      var n := NDIRECT;
      while n < NSLOT - 1
        invariant n <= NSLOT - 1 && Truncating(d0, o0, i, n) && Traced()
      {
        TruncEntry(i, a, n, d0, o0);
        n := n + 1;
      }
    }

    /** itrunc's treatment of the indirect block. */
    method TruncIndirect(i: nat, ghost d0: Fs, ghost o0: map<nat, Slot>)
      requires FsOk(sb, d0, o0) && Truncating(d0, o0, i, NDIRECT) && i in cached && i < sb.ninodes && i in d0.cached
      requires cached[i].addrs[NDIRECT] == d0.cached[i].addrs[NDIRECT]
      requires Traced()
      modifies this`blocks, this`logged, this`writes
      ensures Traced()
      ensures Truncating(d0, o0, i, NSLOT)
    {
      var a := cached[i].addrs[NDIRECT];
      if a != 0 {
        assert SlotOk(sb, d0, o0, i, NDIRECT) && AddrAt(sb, d0, i, NDIRECT) == a;
        TruncEntries(i, a, d0, o0);
        TruncFree(sb, d0, D(), o0, i, NSLOT - 1);
        Bfree(a);
      } else {
        TruncJump(sb, d0, D(), o0, i);
      }
    }

    /** The end of itrunc. */
    method TruncUpdate(i: nat, ghost d0: Fs, ghost o0: map<nat, Slot>)
      requires FsOk(sb, d0, o0) && Clean(sb, d0, sb.ninodes) && i < sb.ninodes
      requires Truncating(d0, o0, i, NSLOT) && DirectGone(d0, D(), i, NDIRECT)
      requires Traced()
      modifies this`blocks, this`cached, this`owner, this`logged, this`writes
      ensures Traced()
      ensures Valid() && Synced() && owner == o0 - Owned(o0, i)
      ensures Truncated(d0, o0, i) && cached[i] == d0.cached[i].(size := 0, addrs := cached[i].addrs)
    {
      ghost var d := D();
      StoreInode(i, Emptied(cached[i]));
      owner := o0 - Owned(o0, i);
      TruncFinish(sb, d0, d, D(), o0, owner, i);
    }

    /** itrunc: discards the contents, freeing exactly the inode's own blocks. */
    method Itrunc(i: nat)
      requires Valid() && Synced() && i in cached && i < sb.ninodes
      requires Traced()
      modifies this`blocks, this`cached, this`owner, this`logged, this`writes
      ensures Traced()
      ensures Valid() && Synced() && owner == old(owner) - Owned(old(owner), i)
      ensures Truncated(old(D()), old(owner), i)
      ensures cached[i] == old(cached)[i].(size := 0, addrs := cached[i].addrs)
    {
      ghost var d0, o0 := D(), owner;
      TruncDirect(i, d0, o0);
      TruncIndirect(i, d0, o0);
      TruncUpdate(i, d0, o0);
    }

    /** ialloc's search: the first free inode after inode 0, or sb.ninodes. */
    method FreeInode() returns (r: nat)
      requires Sized(sb, D())
      ensures 1 <= r && (forall j: nat :: 1 <= j < r && j < sb.ninodes ==> OnDisk(sb, D(), j).typ != 0)
      ensures r < sb.ninodes ==> OnDisk(sb, D(), r).typ == 0
    {
      r := 1;
      while r < sb.ninodes
        invariant 1 <= r && forall j: nat :: 1 <= j < r && j < sb.ninodes ==> OnDisk(sb, D(), j).typ != 0
      {
        if InodeIn(blocks[InodeBlock(sb, r)], r).typ == 0 { return; }
        r := r + 1;
      }
    }

    /** ialloc: a free inode, marked allocated on disk, or 0 if there is none. */
    method Ialloc(typ: Half) returns (r: nat)
      requires Valid() && Synced() && typ != 0
      requires Traced()
      modifies this`blocks, this`logged, this`writes
      ensures Traced()
      ensures Valid() && Synced()
      ensures r == 0 ==> D() == old(D()) && forall j: nat :: 1 <= j < sb.ninodes ==> Current(sb, D(), j).typ != 0
      ensures r != 0 ==>
        && r < sb.ninodes && r !in cached && Current(sb, old(D()), r).typ == 0
        && (forall j: nat :: 1 <= j < r ==> Current(sb, old(D()), j).typ != 0)
        && Current(sb, D(), r) == NewInode(typ) && SameOthers(sb, old(D()), D(), r)
      // the new inode has its type and is empty
      ensures r != 0 ==>
        var n := Current(sb, D(), r);
        && n.typ == typ && n.size == 0 && n.nlink == 0 && n.major == 0 && n.minor == 0
        && forall k: nat :: k < NSLOT ==> AddrAt(sb, D(), r, k) == 0
    {
      ghost var d := D();
      r := FreeInode();
      forall j: nat | 1 <= j < sb.ninodes ensures Current(sb, d, j) == OnDisk(sb, d, j) {}
      if r >= sb.ninodes { return 0; }
      var m := InodeBlock(sb, r);
      Put(m, PutInode(blocks[m], r, NewInode(typ)));
      NewInodeOk(sb, d, owner, r, typ);
    }

    /** ilock: reads the inode from disk if it is not in memory; a free inode is a panic. */
    method Ilock(i: nat)
      requires Valid() && Synced() && i < sb.ninodes && Current(sb, D(), i).typ != 0
      modifies this`cached
      ensures Valid() && Synced() && i in cached && cached[i] == Current(sb, old(D()), i)
      ensures SameFiles(sb, old(D()), D())
    {
      ghost var d := D();
      if i !in cached {
        cached := cached[i := InodeIn(blocks[InodeBlock(sb, i)], i)];
        LoadOk(sb, d, owner, i);
      }
    }

    /** iput of the last reference to an inode without links: its blocks and the
        inode itself become free. */
    method FreeFile(i: nat)
      requires Valid() && Synced() && i in cached && i < sb.ninodes
      requires Traced()
      modifies this`blocks, this`cached, this`owner, this`logged, this`writes
      ensures Traced()
      ensures Valid() && Synced() && i !in cached && Current(sb, D(), i).typ == 0
      ensures owner == old(owner) - Owned(old(owner), i) && SameOthers(sb, old(D()), D(), i)
      ensures forall b: nat :: b < sb.size ==> (Marked(sb, D(), b) <==>
          Marked(sb, old(D()), b) && b !in Owned(old(owner), i))
    {
      Itrunc(i);
      ghost var d := D();
      GiveUp(i);
      FreedOk(sb, d, owner, i);
    }

    /** iput: type 0 on disk, and the in-memory inode is no longer valid. */
    method GiveUp(i: nat)
      requires Sized(sb, D()) && i < sb.ninodes && i in cached
      requires Traced()
      modifies this`cached, this`blocks, this`logged, this`writes
      ensures Traced()
      ensures D() == GivenUp(sb, old(D()), i)
    {
      SetCached(i, cached[i].(typ := 0));
      Iupdate(i);
      cached := cached - {i};
    }

    // ----- filewrite -----

    /** One operation of filewrite: up to CHUNK bytes. */
    method WriteOp(i: nat, off: Word, src: seq<Byte>, good: nat) returns (r: int)
      requires Valid() && Synced() && i in cached && i < sb.ninodes && 0 < |src| <= CHUNK
      modifies this
      ensures Valid() && Synced() && -1 <= r <= |src|
      ensures if r == -1 then D() == old(D()) else Wrote(old(D()), i, off, src, r)
      ensures WriteReturns(sb, D(), i, off, |src|, good, r)
      ensures blocks == Replay(old(blocks), writes) && SmallOperations(sb, [writes])
    {
      logged, base, writes := {}, blocks, [];
      r := Writei(i, off, src, good);
      if r != -1 && sb.size <= BPB {
        FourBlocks(off, |src|);
        assert logged - {} == logged;
        FewLogged(sb, D(), logged, i, off / BSIZE, BlocksTo(off + |src|));
      }
    }

    /** filewrite's next operation, after k bytes; done is how many it has written then. */
    method WritePiece(ghost d0: Fs, i: nat, ghost off0: nat, off: Word, src: seq<Byte>, k: nat, n1: nat, good: nat)
      returns (r: int, ghost done: nat)
      requires i in cached && i < sb.ninodes && StageOk(sb, d0, Stage(D(), owner), i, off0, src, k)
      requires off == off0 + k && k + n1 <= |src| && 0 < n1 <= CHUNK
      modifies this
      ensures i in cached && -1 <= r <= n1 && done == (if r > 0 then k + r else k)
      ensures StageOk(sb, d0, Stage(D(), owner), i, off0, src, done)
      ensures blocks == Replay(old(blocks), writes) && SmallOperations(sb, [writes])
      ensures WriteReturns(sb, D(), i, off, n1, good, r)
    {
      ghost var d := D();
      done := k;
      r := WriteOp(i, off, src[k..k + n1], good);
      if r != -1 {
        done := AppendDone(sb, d0, d, D(), i, off0, off, src, k, n1, r);
      }
    }

    /** The same, with the states between operations. */
    method WriteStage(ghost d0: Fs, i: nat, ghost off0: nat, off: Word, src: seq<Byte>, k: nat, n1: nat, good: nat,
                      ghost ops: seq<seq<Write>>, ghost stages: seq<Stage>)
      returns (r: int, ghost done: nat, ghost ops': seq<seq<Write>>, ghost stages': seq<Stage>)
      requires i in cached && i < sb.ninodes && off == off0 + k && k < |src| && n1 == ChunkSize(|src| - k)
      requires Between(sb, d0, Stage(D(), owner), i, off0, src, good, k, ops, stages)
      modifies this
      ensures i in cached && -1 <= r <= n1 && done == if r > 0 then k + r else k
      ensures if r == n1 then Between(sb, d0, Stage(D(), owner), i, off0, src, good, done, ops', stages')
              else done < |src| && Ended(sb, d0, Stage(D(), owner), i, off0, src, good, done, ops', stages')
    {
      var left := if good > k then good - k else 0;
      r, done := WritePiece(d0, i, off0, off, src, k, n1, left);
      ghost var s := Stage(D(), owner);
      ops', stages' := ops + [writes], stages + [s];
      AfterOperation(sb, d0, s, i, off0, off, src, good, left, k, n1, r, done, ops, stages, writes);
    }

    /** filewrite on an inode (kernel/file.c): the write is split into operations
        small enough for the log. off is f->off, done is how much was written,
        ops lists what each operation wrote, and stages the states before and after them. */
    method FileWrite(i: nat, off0: Word, src: seq<Byte>, good: nat)
      returns (ret: int, off: nat, ghost done: nat, ghost ops: seq<seq<Write>>, ghost stages: seq<Stage>)
      requires Valid() && Synced() && i in cached && i < sb.ninodes && off0 + |src| < 0x1_0000_0000
      modifies this
      ensures Valid() && Synced() && done <= |src| && off == off0 + done
      ensures ret == if done == |src| then |src| else -1
      ensures Ended(sb, old(D()), Stage(D(), owner), i, off0, src, good, done, ops, stages)
    {
      ghost var d0 := D();
      var k, r := 0, 0;
      off, done, ops, stages := off0, 0, [], FirstStage(sb, d0, owner, i, off0, src);
      while k < |src|
        invariant k <= |src| && off == off0 + k && done == k && i in cached
        invariant Between(sb, d0, Stage(D(), owner), i, off0, src, good, k, ops, stages)
      {
        var n1 := ChunkSize(|src| - k);
        r, done, ops, stages := WriteStage(d0, i, off0, off, src, k, n1, good, ops, stages);
        if r > 0 { off := off + r; }
        if r != n1 { return -1, off, done, ops, stages; }
        k := k + r;
      }
      ret := |src|;
    }
  }
}
