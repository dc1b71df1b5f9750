/** Every step of the storage stack keeps its invariant and acts on the pair
    (durable contents, visible contents) as an atomic disk would. */
module StorageSafety {
  import opened Common
  import opened Blocks
  import opened BufferCache
  import opened LogHeader
  import opened Storage

  // ----- visible contents -----

  lemma ContentCached(w: World, b: BufId, n: nat)
    requires Unique(w.cache) && n < |w.disk| && Caches(w, b, n)
    ensures Content(w, n) == w.cache.bufs[b].data
  {
    var b': BufId :| Caches(w, b', n) && Content(w, n) == w.cache.bufs[b'].data;
  }

  lemma ContentUncached(w: World, n: nat)
    requires n < |w.disk| && forall b: BufId :: !Caches(w, b, n)
    ensures Content(w, n) == w.disk[n]
  {}

  // ----- steps that touch neither the disk nor the log -----

  /** Buffer b keeps its contents, is read in from the disk, or gives up contents
      that the disk has too. */
  ghost predicate QuietBuf(w: World, w': World, b: BufId) {
    var x, y := w.cache.bufs[b], w'.cache.bufs[b];
    || (y.dev == x.dev && y.blockno == x.blockno && y.valid == x.valid && y.data == x.data)
    || (y.dev == x.dev && y.blockno == x.blockno && !x.valid && y.valid
        && y.blockno < |w.disk| && y.data == w.disk[y.blockno])
    || (!y.valid && (x.valid ==> !Pinned(w, b) && b !in w.dirty))
  }

  ghost predicate Quiet(w: World, w': World) {
    && w' == w.(cache := w'.cache, users := w'.users)
    && Shape(w'.cache) && Unique(w'.cache)
    && (forall b: BufId :: QuietBuf(w, w', b))
    && (forall b: BufId :: BufferOk(w', b))
  }

  lemma QuietContent(w: World, w': World, n: nat)
    requires Inv(w) && Quiet(w, w') && n < |w.disk|
    ensures Content(w', n) == Content(w, n)
  {
    if b: BufId :| Caches(w, b, n) {
      ContentCached(w, b, n);
      assert QuietBuf(w, w', b) && BufferOk(w, b);
      if Caches(w', b, n) {
        ContentCached(w', b, n);
      } else {
        assert w.cache.bufs[b].data == w.disk[n];
        QuietUncached(w, w', n);
      }
    } else {
      QuietUncached(w, w', n);
    }
  }

  lemma QuietUncached(w: World, w': World, n: nat)
    requires Inv(w) && Quiet(w, w') && n < |w.disk|
    requires forall b: BufId :: Caches(w, b, n) && Caches(w', b, n) ==> w.cache.bufs[b].data == w.disk[n]
    ensures Content(w', n) == w.disk[n]
  {
    if b: BufId :| Caches(w', b, n) {
      assert QuietBuf(w, w', b);
      ContentCached(w', b, n);
    } else {
      ContentUncached(w', n);
    }
  }

  lemma PinnedIsCached(w: World, n: Word) returns (b: BufId)
    requires CacheOk(w) && n in PinnedBlocks(w)
    ensures Caches(w, b, n) && Pinned(w, b)
  {
    b :| Caches(w, b, n);
  }

  lemma QuietPinned(w: World, w': World)
    requires Inv(w) && Quiet(w, w')
    ensures CacheOk(w')
  {
    assert PinnedBlocks(w') == PinnedBlocks(w);
    forall m | m in PinnedBlocks(w') ensures exists b: BufId :: Caches(w', b, m) {
      var b := PinnedIsCached(w, m);
      assert QuietBuf(w, w', b);
      assert Caches(w', b, m);
    }
  }

  lemma QuietLogged(w: World, w': World, j: nat, b: BufId)
    requires Inv(w) && Quiet(w, w') && j < |w.lh| && j < Logged(w) && Caches(w', b, w.lh[j])
    ensures w'.cache.bufs[b].data == w.disk[w.start + 1 + j]
  {
    assert QuietBuf(w, w', b);
    if j >= Installed(w) {
      assert w.lh[j] in PinnedBlocks(w);
      var b' := PinnedIsCached(w, w.lh[j]);
    }
  }

  lemma QuietInv(w: World, w': World)
    requires Inv(w) && Quiet(w, w')
    ensures Inv(w')
  {
    QuietPinned(w, w');
    forall j: nat, b: BufId | j < |w.lh| && j < Logged(w) && Caches(w', b, w.lh[j])
      ensures w'.cache.bufs[b].data == w.disk[w.start + 1 + j]
    {
      QuietLogged(w, w', j, b);
    }
    assert OpsOk(w');
  }

  lemma QuietSame(w: World, w': World)
    requires Inv(w) && Quiet(w, w')
    ensures HeaderOk(w') && Durable(w') == Durable(w) && Visible(w') == Visible(w)
  {
    InMemoryDurable(w, w');
    forall n: nat | n < |w.disk| ensures VisibleAt(w', n) == VisibleAt(w, n) { QuietVisible(w, w', n); }
  }

  lemma QuietVisible(w: World, w': World, n: nat)
    requires Inv(w) && Quiet(w, w') && HeaderOk(w') && n < |w.disk|
    ensures VisibleAt(w', n) == VisibleAt(w, n)
  {
    QuietContent(w, w', n);
  }

  lemma MissNotPinned(w: World, n: nat)
    requires Inv(w) && CanLookup(w, n) && n in PinnedBlocks(w)
    ensures Holds(w.cache.bufs[Choose(w.cache, DEV, n).value], DEV, n)
  {
    var b := PinnedIsCached(w, n);
    var k := Position(w.cache.order, b);
  }

  lemma LookupQuiet(w: World, n: nat)
    requires Inv(w) && CanLookup(w, n)
    ensures Quiet(w, DoLookup(w, n))
  {
    var w' := DoLookup(w, n);
    DoShape(w.cache, Bget(DEV, n));
    DoUnique(w.cache, Bget(DEV, n));
    if n in PinnedBlocks(w) { MissNotPinned(w, n); }
    assert PinnedBlocks(w') == PinnedBlocks(w);
    forall b: BufId ensures BufferOk(w', b) && QuietBuf(w, w', b) { LookupBuffer(w, n, b); }
  }

  lemma LookupBuffer(w: World, n: nat, b: BufId)
    requires Inv(w) && CanLookup(w, n)
        && (n in PinnedBlocks(w) ==> Holds(w.cache.bufs[Choose(w.cache, DEV, n).value], DEV, n))
    ensures BufferOk(DoLookup(w, n), b) && QuietBuf(w, DoLookup(w, n), b)
  {
    assert BufferOk(w, b);
  }

  /** Steps that change one buffer's fields, its list position or its users. */
  lemma OneBufferQuiet(w: World, w': World, b: BufId)
    requires Inv(w) && w' == w.(cache := w'.cache, users := w.users[b := w'.users[b]])
    requires w'.cache.bufs == w.cache.bufs[b := w'.cache.bufs[b]] && Shape(w'.cache)
    requires Holds(w'.cache.bufs[b], w.cache.bufs[b].dev, w.cache.bufs[b].blockno)
    requires QuietBuf(w, w', b) && BufferOk(w', b)
    ensures Quiet(w, w')
  {
    assert PinnedBlocks(w') == PinnedBlocks(w);
    forall b': BufId | b' != b ensures BufferOk(w', b') && QuietBuf(w, w', b') { assert BufferOk(w, b'); }
  }

  lemma LockQuiet(w: World, b: BufId)
    requires Inv(w) && CanLock(w, b)
    ensures Quiet(w, DoLock(w, b))
  {
    assert BufferOk(w, b);
    OneBufferQuiet(w, DoLock(w, b), b);
  }

  lemma FillQuiet(w: World, b: BufId)
    requires Inv(w) && CanFill(w, b)
    ensures Quiet(w, DoFill(w, b))
  {
    assert BufferOk(w, b);
    OneBufferQuiet(w, DoFill(w, b), b);
  }

  lemma UnlockQuiet(w: World, b: BufId)
    requires Inv(w) && CanUnlock(w, b)
    ensures Quiet(w, DoUnlock(w, b))
  {
    assert BufferOk(w, b);
    OneBufferQuiet(w, DoUnlock(w, b), b);
  }

  lemma DropQuiet(w: World, b: BufId)
    requires Inv(w) && CanDrop(w, b)
    ensures Quiet(w, DoDrop(w, b))
  {
    assert BufferOk(w, b);
    DoShape(w.cache, Brelse(b));
    OneBufferQuiet(w, DoDrop(w, b), b);
  }

  // ----- operations -----

  lemma {:induction false} UnspentUpdate(ops: seq<OpState>, p: nat, x: OpState)
    requires p < |ops|
    ensures Unspent(ops[p := x]) == Unspent(ops) - Room(ops[p]) + Room(x)
  {
    var n := |ops| - 1;
    if p < n {
      UnspentUpdate(ops[..n], p, x);
      assert ops[p := x][..n] == ops[..n][p := x];
    } else {
      assert ops[p := x][..n] == ops[..n];
    }
  }

  /** Unspent reservations: at most MAXOPBLOCKS for each outstanding operation,
      at least what any one of them has left. */
  lemma {:induction false} UnspentBounds(ops: seq<OpState>)
    requires forall p :: 0 <= p < |ops| && ops[p].In? ==> ops[p].added <= MAXOPBLOCKS
    ensures 0 <= Unspent(ops) <= MAXOPBLOCKS * Outstanding(ops)
    ensures forall p :: 0 <= p < |ops| ==> Room(ops[p]) <= Unspent(ops)
    ensures Outstanding(ops) == 0 <==> forall p :: 0 <= p < |ops| ==> ops[p].Out?
  {
    if ops != [] {
      var n := |ops| - 1;
      UnspentBounds(ops[..n]);
      forall p | 0 <= p < |ops| ensures Room(ops[p]) <= Unspent(ops) {
        if p < n { assert ops[..n][p] == ops[p]; }
      }
      if Outstanding(ops) == 0 {
        forall p | 0 <= p < |ops| ensures ops[p].Out? {
          if p < n { assert ops[..n][p] == ops[p]; }
        }
      }
    }
  }

  /** The panics of log_write and of end_op are unreachable, and the in-memory
      header never overflows. */
  lemma NoLogPanic(w: World, p: Proc, b: BufId)
    requires Inv(w)
    ensures CanLogWrite(w, p, b) ==> !LogWritePanics(w)
    ensures CanEndOp(w, p) ==> w.phase.Running?
    ensures |w.lh| + Unspent(w.ops) <= LOGBLOCKS && |w.lh| <= LOGBLOCKS
  {
    UnspentBounds(w.ops);
    if CanLogWrite(w, p, b) { assert Room(w.ops[p]) <= Unspent(w.ops); }
  }

  /** What the steps of file system calls have in common: the disk, the list and
      every buffer's identity stay. */
  ghost predicate InMemory(w: World, w': World) {
    && w.phase.Running? && w'.start == w.start && w'.disk == w.disk && w'.users == w.users
    && w'.cache.order == w.cache.order
    && (w'.phase.Running? || (w'.phase == WritingLog(0) && w'.lh != []))
    && (forall b: BufId ::
          w'.cache.bufs[b] == w.cache.bufs[b].(data := w'.cache.bufs[b].data, refcnt := w'.cache.bufs[b].refcnt))
  }

  lemma InMemoryInv(w: World, w': World)
    requires Inv(w) && InMemory(w, w') && OpsOk(w')
    requires forall b: BufId :: BufferOk(w', b)
    requires forall n :: n in w'.lh ==> n in w.lh || exists b: BufId :: Caches(w', b, n)
    ensures Inv(w') && Durable(w') == Durable(w)
  {
    UnspentBounds(w'.ops);
    HeaderKept(w, w');
    forall n | n in PinnedBlocks(w') ensures exists b: BufId :: Caches(w', b, n) {
      if n in w.lh {
        var b := PinnedIsCached(w, n);
        assert Caches(w', b, n);
      }
    }
    InMemoryDurable(w, w');
  }

  lemma InMemoryDurable(w: World, w': World)
    requires HeaderOk(w) && HeaderOk(w') && w'.start == w.start && w'.disk == w.disk
    ensures Durable(w') == Durable(w)
  {
    forall n: nat | n < |w.disk| ensures DurableAt(w', n) == DurableAt(w, n) {}
  }

  lemma InMemoryContent(w: World, w': World, n: nat)
    requires n < |w.disk| && Unique(w.cache) && Unique(w'.cache) && InMemory(w, w')
    requires forall b: BufId :: Caches(w, b, n) ==> w'.cache.bufs[b].data == w.cache.bufs[b].data
    ensures Content(w', n) == Content(w, n)
  {
    if b: BufId :| Caches(w, b, n) {
      ContentCached(w, b, n);
      ContentCached(w', b, n);
    } else {
      forall b: BufId ensures !Caches(w', b, n) { assert !Caches(w, b, n); }
    }
  }

  /** Steps that change no data leave everything visible as it is. */
  lemma InMemorySame(w: World, w': World)
    requires Inv(w) && Inv(w') && InMemory(w, w')
    requires forall b: BufId :: w'.cache.bufs[b].data == w.cache.bufs[b].data
    ensures Visible(w') == Visible(w)
  {
    forall n: nat | n < |w.disk| ensures VisibleAt(w', n) == VisibleAt(w, n) { InMemoryContent(w, w', n); }
  }

  lemma StepBeginOp(w: World, p: Proc)
    requires Inv(w) && CanBeginOp(w, p)
    ensures Inv(DoBeginOp(w, p))
    ensures Durable(DoBeginOp(w, p)) == Durable(w) && Visible(DoBeginOp(w, p)) == Visible(w)
  {
    var w' := DoBeginOp(w, p);
    UnspentBounds(w.ops);
    UnspentUpdate(w.ops, p, In(0));
    forall b: BufId ensures BufferOk(w', b) { assert BufferOk(w, b); }
    InMemoryInv(w, w');
    InMemorySame(w, w');
  }

  lemma StepEndOp(w: World, p: Proc)
    requires Inv(w) && CanEndOp(w, p)
    ensures Inv(DoEndOp(w, p))
    ensures Durable(DoEndOp(w, p)) == Durable(w) && Visible(DoEndOp(w, p)) == Visible(w)
  {
    var w' := DoEndOp(w, p);
    UnspentUpdate(w.ops, p, Out);
    UnspentBounds(w.ops);
    UnspentBounds(w'.ops);
    assert PinnedBlocks(w') == PinnedBlocks(w);
    forall b: BufId ensures BufferOk(w', b) { assert BufferOk(w, b); }
    InMemoryInv(w, w');
    InMemorySame(w, w');
  }

  lemma StepModify(w: World, p: Proc, b: BufId, data: Block)
    requires Inv(w) && CanModify(w, p, b)
    ensures Inv(DoModify(w, p, b, data))
    ensures Durable(DoModify(w, p, b, data)) == Durable(w)
    ensures Visible(DoModify(w, p, b, data)) == Visible(w)[w.cache.bufs[b].blockno := data]
  {
    var w', x := DoModify(w, p, b, data), w.cache.bufs[b].blockno;
    assert w.phase.Running?;
    forall b': BufId ensures BufferOk(w', b') { assert BufferOk(w, b'); }
    InMemoryInv(w, w');
    forall n: nat | n < |w.disk| ensures VisibleAt(w', n) == if n == x then data else VisibleAt(w, n) {
      if n == x {
        ContentCached(w', b, x);
      } else {
        InMemoryContent(w, w', n);
      }
    }
  }

  lemma LogWriteBuffer(w: World, p: Proc, b: BufId, b': BufId)
    requires Inv(w) && CanLogWrite(w, p, b)
    ensures BufferOk(DoLogWrite(w, p, b), b')
  {
    assert BufferOk(w, b') && BufferOk(w, b);
    assert w.phase.Running?;
  }

  lemma LogWriteOps(w: World, p: Proc, b: BufId)
    requires Inv(w) && CanLogWrite(w, p, b)
    ensures OpsOk(DoLogWrite(w, p, b))
  {
    UnspentUpdate(w.ops, p, In(w.ops[p].added + 1));
  }

  lemma StepLogWrite(w: World, p: Proc, b: BufId)
    requires Inv(w) && CanLogWrite(w, p, b)
    ensures Inv(DoLogWrite(w, p, b))
    ensures Durable(DoLogWrite(w, p, b)) == Durable(w) && Visible(DoLogWrite(w, p, b)) == Visible(w)
  {
    var w' := DoLogWrite(w, p, b);
    assert w.phase.Running?;
    LogWriteOps(w, p, b);
    forall b': BufId ensures BufferOk(w', b') { LogWriteBuffer(w, p, b, b'); }
    assert Caches(w', b, w.cache.bufs[b].blockno);
    InMemoryInv(w, w');
    InMemorySame(w, w');
  }

  // ----- commit and recovery -----

  /** One block written through a locked buffer: w' differs from w in the data of
      buffer t and of its block, and perhaps in t's reference count, the log
      header and the phase. */
  ghost predicate Wrote(w: World, w': World, t: BufId, d: Block) {
    && w.cache.bufs[t].blockno < |w.disk| && Has(w, t, w.cache.bufs[t].blockno)
    && w'.start == w.start && w'.disk == w.disk[w.cache.bufs[t].blockno := d]
    && w'.cache.order == w.cache.order && w'.users == w.users && w'.ops == w.ops && w'.dirty == w.dirty
    && w'.cache.bufs == w.cache.bufs[t := w.cache.bufs[t].(data := d, refcnt := w'.cache.bufs[t].refcnt)]
  }

  lemma NothingDirty(w: World, b: BufId)
    requires Inv(w) && !w.phase.Running?
    ensures b !in w.dirty
  {
    assert BufferOk(w, b);
  }

  /** A buffer that is neither pinned nor being modified agrees with the disk. */
  lemma CleanBuffer(w: World, b: BufId, n: nat)
    requires Inv(w) && !w.phase.Running? && Caches(w, b, n) && n !in PinnedBlocks(w)
    ensures n < |w.disk| && w.cache.bufs[b].data == w.disk[n]
  {
    assert BufferOk(w, b);
  }

  /** Writing unpins the buffer it wrote, if that was pinned, and no other. */
  ghost predicate Unpins(w: World, w': World, t: BufId) {
    && w'.cache.bufs[t].refcnt == w.cache.bufs[t].refcnt - (if Pinned(w, t) then 1 else 0)
    && forall n: Word :: n in PinnedBlocks(w') <==> n in PinnedBlocks(w) && n != w.cache.bufs[t].blockno
  }

  lemma WroteBuffer(w: World, w': World, t: BufId, d: Block, b: BufId)
    requires Inv(w) && !w.phase.Running? && Wrote(w, w', t, d) && Unpins(w, w', t)
    ensures BufferOk(w', b)
  {
    assert BufferOk(w, b) && BufferOk(w, t);
    NothingDirty(w, b);
    if b != t && w.cache.bufs[b].dev == DEV {
      assert w.cache.bufs[b].blockno != w.cache.bufs[t].blockno;
    }
  }

  lemma WroteCache(w: World, w': World, t: BufId, d: Block)
    requires Inv(w) && !w.phase.Running? && Wrote(w, w', t, d) && Unpins(w, w', t)
    ensures CacheOk(w')
  {
    forall b: BufId ensures BufferOk(w', b) { WroteBuffer(w, w', t, d, b); }
    forall n | n in PinnedBlocks(w') ensures exists b: BufId :: Caches(w', b, n) {
      var b := PinnedIsCached(w, n);
      assert Caches(w', b, n);
    }
  }

  /** Contents of home blocks are kept when the block written is not a home
      block, or gets what it had. */
  lemma WroteVisible(w: World, w': World, t: BufId, d: Block)
    requires Inv(w) && Inv(w') && Wrote(w, w', t, d) && !InRecovery(w) && !InRecovery(w')
    requires IsLog(w, w.cache.bufs[t].blockno) || d == w.cache.bufs[t].data
    ensures Visible(w') == Visible(w)
  {
    forall n: nat | n < |w.disk| ensures VisibleAt(w', n) == VisibleAt(w, n) {
      if IsHome(w, n) { WroteContent(w, w', t, d, n); }
    }
  }

  lemma WroteContent(w: World, w': World, t: BufId, d: Block, n: nat)
    requires Unique(w.cache) && Unique(w'.cache) && Wrote(w, w', t, d) && IsHome(w, n)
    requires IsLog(w, w.cache.bufs[t].blockno) || d == w.cache.bufs[t].data
    ensures Content(w', n) == Content(w, n)
  {
    if b: BufId :| Caches(w, b, n) {
      assert Caches(w', b, n);
      ContentCached(w, b, n);
      ContentCached(w', b, n);
    } else {
      forall b: BufId ensures !Caches(w', b, n) { assert !Caches(w, b, n); }
      assert !Caches(w, t, n);
    }
  }

  lemma HeaderKept(w: World, w': World)
    requires HeaderOk(w) && w'.start == w.start && |w'.disk| == |w.disk| && w'.disk[w.start] == w.disk[w.start]
    ensures HeaderOk(w')
  {}

  // write_log

  lemma CopyToLogCopies(w: World, to: BufId, from: BufId)
    requires Inv(w) && CanCopyToLog(w, to, from)
    ensures HeaderOk(DoCopyToLog(w, to, from)) && CopiesOk(DoCopyToLog(w, to, from))
  {
    var w' := DoCopyToLog(w, to, from);
    HeaderKept(w, w');
    forall j, b: BufId | 0 <= j < |w'.lh| && j < Logged(w') && Caches(w', b, w'.lh[j])
      ensures w'.cache.bufs[b].data == w'.disk[w'.start + 1 + j]
    {
      assert IsHome(w, w.lh[j]) && Caches(w, b, w.lh[j]);
    }
  }

  lemma StepCopyToLog(w: World, to: BufId, from: BufId)
    requires Inv(w) && CanCopyToLog(w, to, from)
    ensures Inv(DoCopyToLog(w, to, from))
    ensures Durable(DoCopyToLog(w, to, from)) == Durable(w) && Visible(DoCopyToLog(w, to, from)) == Visible(w)
  {
    var w', d := DoCopyToLog(w, to, from), w.cache.bufs[from].data;
    CopyToLogCopies(w, to, from);
    assert IsLog(w, w.cache.bufs[to].blockno) && w.cache.bufs[to].blockno !in PinnedBlocks(w);
    WroteCache(w, w', to, d);
    WroteVisible(w, w', to, d);
    forall n: nat | n < |w.disk| ensures DurableAt(w', n) == DurableAt(w, n) {}
  }

  // the commit

  /** Just before the commit, log and disk together hold what is visible. */
  lemma LoggedContent(w: World, n: nat)
    requires Inv(w) && w.phase.WritingHead? && IsHome(w, n)
    ensures n in w.lh ==> Content(w, n) == w.disk[w.start + 1 + IndexOf(w.lh, n)]
    ensures n !in w.lh ==> Content(w, n) == w.disk[n]
  {
    if n in w.lh {
      var b := PinnedIsCached(w, n);
      ContentCached(w, b, n);
      assert Caches(w, b, w.lh[IndexOf(w.lh, n)]);
    } else if b: BufId :| Caches(w, b, n) {
      ContentCached(w, b, n);
      CleanBuffer(w, b, n);
    }
  }

  lemma CommitHeadLog(w: World, hb: BufId)
    requires Inv(w) && CanCommitHead(w, hb)
    ensures LogOk(DoCommitHead(w, hb))
  {
    var w' := DoCommitHead(w, hb);
    HeadRoundTrip(w.cache.bufs[hb].data, w.lh);
    assert CopiesOk(w') by {
      forall j, b: BufId | 0 <= j < |w'.lh| && j < Logged(w') && Caches(w', b, w'.lh[j])
        ensures w'.cache.bufs[b].data == w'.disk[w'.start + 1 + j]
      {
        assert IsHome(w, w.lh[j]) && Caches(w, b, w.lh[j]);
      }
    }
  }

  lemma HeadDurableAt(w: World, w': World, n: nat)
    requires w'.start == w.start < |w.disk| == |w'.disk| && w'.disk == w.disk[w.start := w'.disk[w.start]]
    requires HeaderOk(w') && Head(w'.disk[w.start]) == w.lh && IsHome(w, n)
    requires |w.lh| <= LOGBLOCKS && w.start + LOGBLOCKS < |w.disk|
    ensures n in w.lh ==> DurableAt(w', n) == w.disk[w.start + 1 + IndexOf(w.lh, n)]
    ensures n !in w.lh ==> DurableAt(w', n) == w.disk[n]
  {}

  lemma CommitHeadDurable(w: World, hb: BufId)
    requires Inv(w) && CanCommitHead(w, hb) && LogOk(DoCommitHead(w, hb))
    ensures Durable(DoCommitHead(w, hb)) == Visible(w)
  {
    var w' := DoCommitHead(w, hb);
    forall n: nat | n < |w.disk| ensures DurableAt(w', n) == VisibleAt(w, n) {
      if IsHome(w, n) {
        LoggedContent(w, n);
        HeadDurableAt(w, w', n);
      }
    }
  }

  lemma StepCommitHead(w: World, hb: BufId)
    requires Inv(w) && CanCommitHead(w, hb)
    ensures Inv(DoCommitHead(w, hb))
    ensures Durable(DoCommitHead(w, hb)) == Visible(w) && Visible(DoCommitHead(w, hb)) == Visible(w)
  {
    var w', d := DoCommitHead(w, hb), PutHead(w.cache.bufs[hb].data, w.lh);
    CommitHeadLog(w, hb);
    assert IsLog(w, w.cache.bufs[hb].blockno) && w.cache.bufs[hb].blockno !in PinnedBlocks(w);
    assert PinnedBlocks(w') == PinnedBlocks(w);
    WroteCache(w, w', hb, d);
    WroteVisible(w, w', hb, d);
    CommitHeadDurable(w, hb);
  }

  // install_trans

  lemma InTail(s: seq<Word>, i: nat, n: Word)
    requires Distinct(s) && i < |s|
    ensures n in s[i + 1..] <==> n in s[i..] && n != s[i]
  {
    assert s[i..] == [s[i]] + s[i + 1..];
  }

  /** Installing copies log block i to home block lh[i]; header and log stay. */
  lemma InstallLog(w: World, w': World, lbuf: BufId, dbuf: BufId)
    requires Inv(w) && (w.phase.Installing? || w.phase.Recovering?) && w.phase.i < |w.lh|
    requires Has(w, lbuf, w.start + 1 + w.phase.i) && Has(w, dbuf, w.lh[w.phase.i])
    requires Wrote(w, w', dbuf, w.cache.bufs[lbuf].data) && w'.lh == w.lh
    requires w'.phase == Advance(w.phase, |w.lh|)
    ensures LogOk(w') && Durable(w') == Durable(w)
    ensures w.cache.bufs[lbuf].data == w.disk[w.start + 1 + w.phase.i]
  {
    var i := w.phase.i;
    assert IsLog(w, w.start + 1 + i) && IsHome(w, w.lh[i]);
    CleanBuffer(w, lbuf, w.start + 1 + i);
    HeaderKept(w, w');
    assert w'.disk == w.disk[w.lh[i] := w.disk[w.start + 1 + i]];
    assert CopiesOk(w') by { InstallCopies(w, w', dbuf); }
    assert InstalledOk(w') by { InstallInstalled(w, w'); }
    InstallDurable(w, w', i);
  }

  lemma InstallDurable(w: World, w': World, i: nat)
    requires Inv(w) && (w.phase == Installing(i) || w.phase == Recovering(i)) && i < |w.lh| && IsHome(w, w.lh[i])
        && HeaderOk(w')
    requires w'.start == w.start && w.start + 1 + i < |w.disk| && w'.disk == w.disk[w.lh[i] := w.disk[w.start + 1 + i]]
    ensures Durable(w') == Durable(w)
  {
    forall n: nat | n < |w.disk| ensures DurableAt(w', n) == DurableAt(w, n) {
      DurableKept(w, w', w.lh[i], w.disk[w.start + 1 + i], n);
    }
  }

  lemma InstallCopies(w: World, w': World, dbuf: BufId)
    requires HeaderOk(w) && HeaderOk(w') && |w.lh| <= LOGBLOCKS && CopiesOk(w) && OpsOk(w)
    requires (w.phase.Installing? || w.phase.Recovering?) && w.phase.i < |w.lh|
    requires w'.lh == w.lh && Logged(w') == Logged(w)
    requires Has(w, dbuf, w.lh[w.phase.i]) && Wrote(w, w', dbuf, w.disk[w.start + 1 + w.phase.i])
    ensures CopiesOk(w')
  {
    forall j, b: BufId | 0 <= j < |w'.lh| && j < Logged(w') && Caches(w', b, w'.lh[j])
      ensures w'.cache.bufs[b].data == w'.disk[w'.start + 1 + j]
    {
      assert IsLog(w, w.start + 1 + j) && IsHome(w, w.lh[w.phase.i]);
      assert Caches(w, b, w.lh[j]);
    }
  }

  lemma InstallInstalled(w: World, w': World)
    requires HeaderOk(w) && HeaderOk(w') && |w.lh| <= LOGBLOCKS && InstalledOk(w) && OpsOk(w)
    requires (w.phase.Installing? || w.phase.Recovering?) && w.phase.i < |w.lh|
    requires w'.lh == w.lh && Installed(w') == w.phase.i + 1 && w'.start == w.start
    requires w'.disk == w.disk[w.lh[w.phase.i] := w.disk[w.start + 1 + w.phase.i]]
    ensures InstalledOk(w')
  {
    var i := w.phase.i;
    forall j | 0 <= j < |w'.lh| && j < Installed(w')
      ensures w'.lh[j] < |w'.disk| && w'.disk[w'.lh[j]] == w'.disk[w'.start + 1 + j]
    {
      assert IsLog(w, w.start + 1 + j) && IsHome(w, w.lh[i]);
      if j < i { assert w.lh[j] != w.lh[i]; }
    }
  }

  /** Overwriting a home block that the header names changes nothing durable. */
  lemma DurableKept(w: World, w': World, x: nat, d: Block, n: nat)
    requires HeaderOk(w) && IsHome(w, x) && x in Head(w.disk[w.start])
    requires w'.start == w.start && w'.disk == w.disk[x := d] && n < |w.disk|
    ensures HeaderOk(w') && DurableAt(w', n) == DurableAt(w, n)
  {
    var h := Head(w.disk[w.start]);
    if n in h { assert IsLog(w, w.start + 1 + IndexOf(h, n)); }
  }

  lemma InstallUnpins(w: World, w': World, i: nat)
    requires Inv(w) && w.phase == Installing(i) && i < |w.lh| && w'.lh == w.lh && w'.phase == Advance(w.phase, |w.lh|)
    ensures forall n: Word :: n in PinnedBlocks(w') <==> n in PinnedBlocks(w) && n != w.lh[i]
    ensures w.lh[i] in PinnedBlocks(w)
  {
    forall n: Word ensures n in PinnedBlocks(w') <==> n in PinnedBlocks(w) && n != w.lh[i] {
      InTail(w.lh, i, n);
    }
  }

  lemma StepInstall(w: World, lbuf: BufId, dbuf: BufId)
    requires Inv(w) && CanInstall(w, lbuf, dbuf)
    ensures Inv(DoInstall(w, lbuf, dbuf))
    ensures Durable(DoInstall(w, lbuf, dbuf)) == Durable(w) && Visible(DoInstall(w, lbuf, dbuf)) == Visible(w)
  {
    var w', d, i := DoInstall(w, lbuf, dbuf), w.cache.bufs[lbuf].data, w.phase.i;
    InstallLog(w, w', lbuf, dbuf);
    InstallUnpins(w, w', i);
    WroteCache(w, w', dbuf, d);
    assert Caches(w, dbuf, w.lh[i]);
    WroteVisible(w, w', dbuf, d);
  }

  lemma StepRecover(w: World, lbuf: BufId, dbuf: BufId)
    requires Inv(w) && CanRecover(w, lbuf, dbuf)
    ensures Inv(DoRecover(w, lbuf, dbuf))
    ensures Durable(DoRecover(w, lbuf, dbuf)) == Durable(w) && Visible(DoRecover(w, lbuf, dbuf)) == Visible(w)
  {
    var w' := DoRecover(w, lbuf, dbuf);
    InstallLog(w, w', lbuf, dbuf);
    WroteCache(w, w', dbuf, w.cache.bufs[lbuf].data);
    RecoveryVisible(w);
    RecoveryVisible(w');
  }

  lemma RecoveryVisible(w: World)
    requires HeaderOk(w) && InRecovery(w)
    ensures Visible(w) == Durable(w)
  {
    forall n: nat | n < |w.disk| ensures VisibleAt(w, n) == DurableAt(w, n) {}
  }

  // the write_head that erases the log

  lemma EraseDurable(w: World, hb: BufId)
    requires Inv(w) && (CanEraseHead(w, hb) || CanRecoverHead(w, hb))
    ensures LogOk(DoEraseHead(w, hb)) && Durable(DoEraseHead(w, hb)) == Durable(w)
  {
    var w' := DoEraseHead(w, hb);
    HeadRoundTrip(w.cache.bufs[hb].data, []);
    forall n: nat | n < |w.disk| ensures DurableAt(w', n) == DurableAt(w, n) {
      if n in w.lh {
        var j := IndexOf(w.lh, n);
        assert w.disk[w.lh[j]] == w.disk[w.start + 1 + j];
      }
    }
  }

  lemma EraseInv(w: World, hb: BufId)
    requires Inv(w) && (CanEraseHead(w, hb) || CanRecoverHead(w, hb))
    ensures Inv(DoEraseHead(w, hb)) && Durable(DoEraseHead(w, hb)) == Durable(w)
  {
    EraseDurable(w, hb);
    UnspentBounds(w.ops);
    WroteCache(w, DoEraseHead(w, hb), hb, PutHead(w.cache.bufs[hb].data, []));
  }

  lemma StepEraseHead(w: World, hb: BufId)
    requires Inv(w) && CanEraseHead(w, hb)
    ensures Inv(DoEraseHead(w, hb))
    ensures Durable(DoEraseHead(w, hb)) == Durable(w) && Visible(DoEraseHead(w, hb)) == Visible(w)
  {
    EraseInv(w, hb);
    WroteVisible(w, DoEraseHead(w, hb), hb, PutHead(w.cache.bufs[hb].data, []));
  }

  /** When recovery is over, reading through the cache gives the durable contents. */
  lemma StepRecoverHead(w: World, hb: BufId)
    requires Inv(w) && CanRecoverHead(w, hb)
    ensures Inv(DoEraseHead(w, hb))
    ensures Durable(DoEraseHead(w, hb)) == Durable(w) && Visible(DoEraseHead(w, hb)) == Visible(w)
  {
    EraseInv(w, hb);
    RecoveryVisible(w);
    var w' := DoEraseHead(w, hb);
    forall n: nat | n < |w.disk| ensures VisibleAt(w', n) == DurableAt(w', n) {
      if b: BufId :| Caches(w', b, n) {
        ContentCached(w', b, n);
        NothingDirty(w, b);
        assert BufferOk(w', b);
      }
    }
    assert Visible(w') == Durable(w');
  }

  // ----- crash and boot -----

  lemma InitShape()
    ensures Shape(Init()) && Unique(Init())
  {}

  lemma StepCrash(w: World)
    requires Inv(w)
    ensures Inv(DoCrash(w))
    ensures Durable(DoCrash(w)) == Durable(w) && Visible(DoCrash(w)) == Durable(w)
  {
    var w' := DoCrash(w);
    InitShape();
    UnspentBounds(w'.ops);
    HeaderKept(w, w');
    forall b: BufId ensures BufferOk(w', b) {}
    InMemoryDurable(w, w');
    RecoveryVisible(w');
  }

  lemma StepReadHead(w: World, hb: BufId)
    requires Inv(w) && CanReadHead(w, hb)
    ensures Inv(DoReadHead(w, hb))
    ensures Durable(DoReadHead(w, hb)) == Durable(w) && Visible(DoReadHead(w, hb)) == Visible(w)
  {
    var w' := DoReadHead(w, hb);
    CleanBuffer(w, hb, w.start);
    UnspentBounds(w.ops);
    HeaderKept(w, w');
    assert PinnedBlocks(w') == PinnedBlocks(w);
    forall b: BufId ensures BufferOk(w', b) { assert BufferOk(w, b); }
    InMemoryDurable(w, w');
    RecoveryVisible(w);
    RecoveryVisible(w');
  }
}
