/** The write-ahead log (kernel/log.c) over the buffer cache (kernel/bio.c) over a
    disk that writes one block at a time and may stop between any two writes.

    A Step is one critical section, one disk transfer together with the copying
    done while its buffers are locked, or a crash. Any number of processes may be
    inside bread..brelse, and up to NPROC inside begin_op..end_op. */
module Storage {
  import opened Common
  import opened Blocks
  import opened BufferCache
  import opened LogHeader

  const DEV: nat := 1  // ROOTDEV, the device of the file system and its log

  /** Whether a process is between begin_op and end_op, and how many blocks it
      has added to the log since begin_op. */
  datatype OpState = Out | In(added: nat)

  datatype Phase =
    | Booting                // before read_head
    | Recovering(i: nat)     // install_trans(1): i blocks installed
    | Recovered              // before the write_head of recover_from_log
    | Running                // committing == 0
    | WritingLog(i: nat)     // write_log: i blocks copied
    | WritingHead            // before the write_head that commits
    | Installing(i: nat)     // install_trans(0): i blocks installed
    | Erasing                // before the write_head that erases the log

  datatype WorldData = World(
    start: nat,                  // log.start
    disk: seq<Block>,
    cache: Cache,
    users: seq<nat>,             // per buffer: processes inside bread..brelse
    lh: seq<Word>,               // log.lh
    ops: seq<OpState>,           // per process; log.outstanding is their number
    dirty: map<BufId, nat>,      // modified, not yet passed to log_write, and by whom
    phase: Phase)

  type World = w: WorldData | |w.users| == NBUF && |w.ops| == NPROC
    witness World(0, [], Init(), seq(NBUF, _ => 0), [], seq(NPROC, _ => Out), map[], Booting)

  type Proc = p: nat | p < NPROC

  datatype Step =
    | Lookup(blockno: nat)                      // bget, under bcache.lock
    | Lock(b: BufId)                            // acquiresleep returns
    | Fill(b: BufId)                            // bread: virtio_disk_rw(b, 0)
    | Unlock(b: BufId)                          // brelse: releasesleep
    | Drop(b: BufId)                            // brelse, under bcache.lock
    | BeginOp(p: Proc)
    | Modify(p: Proc, b: BufId, data: Block)    // a file system call changes b->data
    | LogWrite(p: Proc, b: BufId)
    | EndOp(p: Proc)
    | CopyToLog(to: BufId, from: BufId)         // one iteration of write_log
    | CommitHead(hb: BufId)                     // the write_head that commits
    | Install(lbuf: BufId, dbuf: BufId)         // one iteration of install_trans(0)
    | EraseHead(hb: BufId)                      // lh.n = 0, write_head, committing = 0
    | Crash
    | ReadHead(hb: BufId)
    | Recover(lbuf: BufId, dbuf: BufId)         // one iteration of install_trans(1)
    | RecoverHead(hb: BufId)                    // lh.n = 0, write_head

  // ----- reading a world -----

  predicate IsLog(w: World, blockno: int) {
    w.start <= blockno <= w.start + LOGBLOCKS
  }

  /** Blocks with a home location: every block of the disk outside the log. */
  predicate IsHome(w: World, blockno: int) {
    0 <= blockno < |w.disk| && !IsLog(w, blockno)
  }

  /** Buffer b is locked and holds the contents of the block. */
  predicate Has(w: World, b: BufId, blockno: nat) {
    w.cache.bufs[b].locked && w.cache.bufs[b].valid && Holds(w.cache.bufs[b], DEV, blockno)
  }

  function Outstanding(ops: seq<OpState>): (n: nat) {
    if ops == [] then 0
    else Outstanding(ops[..|ops| - 1]) + if ops[|ops| - 1].In? then 1 else 0
  }

  function Room(o: OpState): (n: int) {
    if o.In? then MAXOPBLOCKS - o.added else 0
  }

  /** Log blocks reserved by begin_op and not yet used. */
  function Unspent(ops: seq<OpState>): (n: int) {
    if ops == [] then 0 else Unspent(ops[..|ops| - 1]) + Room(ops[|ops| - 1])
  }

  /** The logged blocks that are pinned in the cache. */
  function PinnedBlocks(w: World): (r: seq<Word>) {
    match w.phase
    case Running => w.lh
    case WritingLog(_) => w.lh
    case WritingHead => w.lh
    case Installing(i) => if i <= |w.lh| then w.lh[i..] else []
    case _ => []
  }

  predicate Pinned(w: World, b: BufId) {
    w.cache.bufs[b].dev == DEV && w.cache.bufs[b].blockno in PinnedBlocks(w)
  }

  // ----- steps -----
  //
  // For each step a predicate Can.. saying when it may happen and a function Do..
  // giving the next world. Besides what the code itself waits for or checks, the
  // predicates hold the rules its callers follow: data is changed only inside an
  // operation, in a locked buffer of a block outside the log, and is passed to
  // log_write before the buffer is released and before end_op; log_write is
  // called only while the operation has added fewer than MAXOPBLOCKS blocks.

  function Set(w: World, b: BufId, x: Buf): (r: World) {
    w.(cache := SetBuf(w.cache, b, x))
  }

  /** Overwrite b->data and write it to its block (memmove, bwrite). */
  function Write(w: World, b: BufId, data: Block): (r: World)
    requires w.cache.bufs[b].blockno < |w.disk|
  {
    w.(cache := SetBuf(w.cache, b, w.cache.bufs[b].(data := data)),
       disk := w.disk[w.cache.bufs[b].blockno := data])
  }

  /** The phase after one iteration of a loop over the n logged blocks. */
  function Advance(phase: Phase, n: nat): (r: Phase) {
    match phase
    case WritingLog(i) => if i + 1 < n then WritingLog(i + 1) else WritingHead
    case Installing(i) => if i + 1 < n then Installing(i + 1) else Erasing
    case Recovering(i) => if i + 1 < n then Recovering(i + 1) else Recovered
    case _ => phase
  }

  predicate CanLookup(w: World, n: nat) {
    n < |w.disk| && Choose(w.cache, DEV, n).Some?
  }

  function DoLookup(w: World, n: nat): (r: World)
    requires CanLookup(w, n)
  {
    var b := Choose(w.cache, DEV, n).value;
    w.(cache := Get(w.cache, DEV, n), users := w.users[b := w.users[b] + 1])
  }

  predicate CanLock(w: World, b: BufId) {
    w.users[b] > 0 && !w.cache.bufs[b].locked
  }

  function DoLock(w: World, b: BufId): (r: World) {
    Set(w, b, w.cache.bufs[b].(locked := true))
  }

  predicate CanFill(w: World, b: BufId) {
    w.cache.bufs[b].locked && !w.cache.bufs[b].valid && w.cache.bufs[b].blockno < |w.disk|
  }

  function DoFill(w: World, b: BufId): (r: World)
    requires CanFill(w, b)
  {
    Set(w, b, w.cache.bufs[b].(valid := true, data := w.disk[w.cache.bufs[b].blockno]))
  }

  predicate CanUnlock(w: World, b: BufId) {
    w.cache.bufs[b].locked && w.cache.bufs[b].valid && b !in w.dirty
  }

  function DoUnlock(w: World, b: BufId): (r: World) {
    Set(w, b, w.cache.bufs[b].(locked := false))
  }

  predicate CanDrop(w: World, b: BufId) {
    && w.users[b] > (if w.cache.bufs[b].locked then 1 else 0)
    && w.cache.bufs[b].refcnt > 0 && b in w.cache.order
  }

  function DoDrop(w: World, b: BufId): (r: World)
    requires CanDrop(w, b)
  {
    w.(cache := Put(w.cache, b), users := w.users[b := w.users[b] - 1])
  }

  predicate CanBeginOp(w: World, p: Proc) {
    && w.phase.Running? && w.ops[p].Out?
    && |w.lh| + (Outstanding(w.ops) + 1) * MAXOPBLOCKS <= LOGBLOCKS
  }

  function DoBeginOp(w: World, p: Proc): (r: World) {
    w.(ops := w.ops[p := In(0)])
  }

  predicate CanModify(w: World, p: Proc, b: BufId) {
    && w.ops[p].In?
    && Has(w, b, w.cache.bufs[b].blockno)
    && IsHome(w, w.cache.bufs[b].blockno) && w.cache.bufs[b].blockno < 0x1_0000_0000
    && (b in w.dirty ==> w.dirty[b] == p)
  }

  function DoModify(w: World, p: Proc, b: BufId, data: Block): (r: World) {
    Set(w, b, w.cache.bufs[b].(data := data)).(dirty := w.dirty[b := p])
  }

  predicate CanLogWrite(w: World, p: Proc, b: BufId) {
    CanModify(w, p, b) && w.ops[p].added < MAXOPBLOCKS
  }

  /** log_write's two panics. */
  predicate LogWritePanics(w: World) {
    |w.lh| >= LOGBLOCKS || Outstanding(w.ops) < 1
  }

  function DoLogWrite(w: World, p: Proc, b: BufId): (r: World)
    requires CanLogWrite(w, p, b)
  {
    var n := w.cache.bufs[b].blockno;
    if n in w.lh then w.(dirty := w.dirty - {b})  // log absorption
    else
      Set(w, b, w.cache.bufs[b].(refcnt := w.cache.bufs[b].refcnt + 1))
        .(dirty := w.dirty - {b}, lh := w.lh + [n], ops := w.ops[p := In(w.ops[p].added + 1)])
  }

  predicate CanEndOp(w: World, p: Proc) {
    w.ops[p].In? && forall b :: b in w.dirty ==> w.dirty[b] != p
  }

  function DoEndOp(w: World, p: Proc): (r: World) {
    var ops' := w.ops[p := Out];
    var commit := Outstanding(ops') == 0 && |w.lh| > 0;
    w.(ops := ops', phase := if commit then WritingLog(0) else w.phase)
  }

  predicate CanCopyToLog(w: World, to: BufId, from: BufId) {
    && w.phase.WritingLog? && w.phase.i < |w.lh| && w.start + 1 + w.phase.i < |w.disk|
    && Has(w, to, w.start + 1 + w.phase.i) && Has(w, from, w.lh[w.phase.i])
  }

  function DoCopyToLog(w: World, to: BufId, from: BufId): (r: World)
    requires CanCopyToLog(w, to, from)
  {
    Write(w, to, w.cache.bufs[from].data)
      .(phase := Advance(w.phase, |w.lh|))
  }

  predicate CanCommitHead(w: World, hb: BufId) {
    w.phase.WritingHead? && Has(w, hb, w.start) && w.start < |w.disk| && |w.lh| <= LOGBLOCKS
  }

  function DoCommitHead(w: World, hb: BufId): (r: World)
    requires CanCommitHead(w, hb)
  {
    Write(w, hb, PutHead(w.cache.bufs[hb].data, w.lh)).(phase := Installing(0))
  }

  predicate CanInstall(w: World, lbuf: BufId, dbuf: BufId) {
    && w.phase.Installing? && w.phase.i < |w.lh| && w.lh[w.phase.i] < |w.disk|
    && Has(w, lbuf, w.start + 1 + w.phase.i) && Has(w, dbuf, w.lh[w.phase.i])
    && w.cache.bufs[dbuf].refcnt > 0
  }

  function DoInstall(w: World, lbuf: BufId, dbuf: BufId): (r: World)
    requires CanInstall(w, lbuf, dbuf)
  {
    var w' := Write(w, dbuf, w.cache.bufs[lbuf].data);
    Set(w', dbuf, w'.cache.bufs[dbuf].(refcnt := w'.cache.bufs[dbuf].refcnt - 1))
      .(phase := Advance(w.phase, |w.lh|))
  }

  predicate CanEraseHead(w: World, hb: BufId) {
    w.phase.Erasing? && Has(w, hb, w.start) && w.start < |w.disk|
  }

  function DoEraseHead(w: World, hb: BufId): (r: World)
    requires Has(w, hb, w.start) && w.start < |w.disk|
  {
    Write(w, hb, PutHead(w.cache.bufs[hb].data, [])).(lh := [], phase := Running)
  }

  function DoCrash(w: World): (r: World) {
    World(w.start, w.disk, Init(), seq(NBUF, _ => 0), [], seq(NPROC, _ => Out), map[], Booting)
  }

  predicate CanReadHead(w: World, hb: BufId) {
    w.phase.Booting? && Has(w, hb, w.start) && HeadOk(w.cache.bufs[hb].data)
  }

  function DoReadHead(w: World, hb: BufId): (r: World)
    requires CanReadHead(w, hb)
  {
    var lh := Head(w.cache.bufs[hb].data);
    w.(lh := lh, phase := if lh == [] then Recovered else Recovering(0))
  }

  predicate CanRecover(w: World, lbuf: BufId, dbuf: BufId) {
    && w.phase.Recovering? && w.phase.i < |w.lh| && w.lh[w.phase.i] < |w.disk|
    && Has(w, lbuf, w.start + 1 + w.phase.i) && Has(w, dbuf, w.lh[w.phase.i])
  }

  function DoRecover(w: World, lbuf: BufId, dbuf: BufId): (r: World)
    requires CanRecover(w, lbuf, dbuf)
  {
    Write(w, dbuf, w.cache.bufs[lbuf].data)
      .(phase := Advance(w.phase, |w.lh|))
  }

  predicate CanRecoverHead(w: World, hb: BufId) {
    w.phase.Recovered? && Has(w, hb, w.start) && w.start < |w.disk|
  }

  predicate Enabled(w: World, s: Step) {
    match s
    case Lookup(n) => CanLookup(w, n)
    case Lock(b) => CanLock(w, b)
    case Fill(b) => CanFill(w, b)
    case Unlock(b) => CanUnlock(w, b)
    case Drop(b) => CanDrop(w, b)
    case BeginOp(p) => CanBeginOp(w, p)
    case Modify(p, b, _) => CanModify(w, p, b)
    case LogWrite(p, b) => CanLogWrite(w, p, b)
    case EndOp(p) => CanEndOp(w, p)
    case CopyToLog(to, from) => CanCopyToLog(w, to, from)
    case CommitHead(hb) => CanCommitHead(w, hb)
    case Install(lbuf, dbuf) => CanInstall(w, lbuf, dbuf)
    case EraseHead(hb) => CanEraseHead(w, hb)
    case Crash => true
    case ReadHead(hb) => CanReadHead(w, hb)
    case Recover(lbuf, dbuf) => CanRecover(w, lbuf, dbuf)
    case RecoverHead(hb) => CanRecoverHead(w, hb)
  }

  function Next(w: World, s: Step): (r: World)
    requires Enabled(w, s)
  {
    match s
    case Lookup(n) => DoLookup(w, n)
    case Lock(b) => DoLock(w, b)
    case Fill(b) => DoFill(w, b)
    case Unlock(b) => DoUnlock(w, b)
    case Drop(b) => DoDrop(w, b)
    case BeginOp(p) => DoBeginOp(w, p)
    case Modify(p, b, data) => DoModify(w, p, b, data)
    case LogWrite(p, b) => DoLogWrite(w, p, b)
    case EndOp(p) => DoEndOp(w, p)
    case CopyToLog(to, from) => DoCopyToLog(w, to, from)
    case CommitHead(hb) => DoCommitHead(w, hb)
    case Install(lbuf, dbuf) => DoInstall(w, lbuf, dbuf)
    case EraseHead(hb) => DoEraseHead(w, hb)
    case Crash => DoCrash(w)
    case ReadHead(hb) => DoReadHead(w, hb)
    case Recover(lbuf, dbuf) => DoRecover(w, lbuf, dbuf)
    case RecoverHead(hb) => DoEraseHead(w, hb)
  }

  // ----- what a world stands for -----

  ghost predicate Caches(w: World, b: BufId, blockno: nat) {
    w.cache.bufs[b].valid && Holds(w.cache.bufs[b], DEV, blockno)
  }

  /** The contents a reader of the block gets: the cached copy if there is one. */
  ghost function Content(w: World, blockno: nat): (d: Block)
    requires blockno < |w.disk|
  {
    if b: BufId :| Caches(w, b, blockno) then w.cache.bufs[b].data else w.disk[blockno]
  }

  /** First position of x in s. */
  function IndexOf(s: seq<Word>, x: int): (i: nat)
    requires x in s
    ensures i < |s| && s[i] == x
  {
    if s[0] == x then 0 else 1 + IndexOf(s[1..], x)
  }

  ghost predicate HeaderOk(w: World) {
    && w.start + LOGBLOCKS < |w.disk|
    && HeadOk(w.disk[w.start])
    && Distinct(Head(w.disk[w.start]))
    && forall i :: 0 <= i < |Head(w.disk[w.start])| ==> IsHome(w, Head(w.disk[w.start])[i])
  }

  /** What the disk would hold outside the log after recovery: home blocks named
      by the on-disk header come from the log. */
  ghost function Durable(w: World): (r: seq<Block>)
    requires HeaderOk(w)
  {
    seq(|w.disk|, (n: nat) requires n < |w.disk| && HeaderOk(w) => DurableAt(w, n))
  }

  ghost function DurableAt(w: World, n: nat): (d: Block)
    requires HeaderOk(w) && n < |w.disk|
  {
    if IsLog(w, n) then ZERO
    else if n in Head(w.disk[w.start]) then w.disk[w.start + 1 + IndexOf(Head(w.disk[w.start]), n)]
    else w.disk[n]
  }

  predicate InRecovery(w: World) {
    w.phase.Booting? || w.phase.Recovering? || w.phase.Recovered?
  }

  /** What file system calls see outside the log. Before recovery is finished
      there are none, and it is what recovery will leave behind. */
  ghost function Visible(w: World): (r: seq<Block>)
    requires HeaderOk(w)
  {
    seq(|w.disk|, (n: nat) requires n < |w.disk| && HeaderOk(w) => VisibleAt(w, n))
  }

  ghost function VisibleAt(w: World, n: nat): (d: Block)
    requires HeaderOk(w) && n < |w.disk|
  {
    if InRecovery(w) then DurableAt(w, n) else if IsLog(w, n) then ZERO else Content(w, n)
  }

  // ----- the invariant -----

  ghost predicate BufferOk(w: World, b: BufId) {
    var x := w.cache.bufs[b];
    && (x.dev == 0 ==> !x.valid && !x.locked && x.refcnt == 0)
    && (x.dev != 0 ==> x.dev == DEV && x.blockno < |w.disk|)
    && x.refcnt == w.users[b] + (if Pinned(w, b) then 1 else 0)
    && (x.locked ==> w.users[b] > 0)
    && (x.valid && !Pinned(w, b) && b !in w.dirty ==> x.data == w.disk[x.blockno])
    && (b in w.dirty ==>
          && x.locked && x.valid && IsHome(w, x.blockno)
          && w.dirty[b] < NPROC && w.ops[w.dirty[b]].In?)
  }

  ghost predicate CacheOk(w: World) {
    && Shape(w.cache) && Unique(w.cache)
    && (forall b: BufId :: BufferOk(w, b))
    && (forall n :: n in PinnedBlocks(w) ==> exists b: BufId :: Caches(w, b, n))
  }

  ghost predicate OpsOk(w: World) {
    && (forall p: Proc :: w.ops[p].In? ==> w.ops[p].added <= MAXOPBLOCKS)
    && (!w.phase.Running? ==> forall p: Proc :: w.ops[p].Out?)
    && |w.lh| + Unspent(w.ops) <= LOGBLOCKS
    && Distinct(w.lh)
    && forall i :: 0 <= i < |w.lh| ==> IsHome(w, w.lh[i])
  }

  /** How many entries of lh are in the log, and how many are installed. */
  function Logged(w: World): (n: nat) {
    match w.phase
    case WritingLog(i) => i
    case WritingHead => |w.lh|
    case Installing(_) => |w.lh|
    case Erasing => |w.lh|
    case _ => 0
  }

  function Installed(w: World): (n: nat) {
    match w.phase
    case Installing(i) => i
    case Erasing => |w.lh|
    case Recovering(i) => i
    case Recovered => |w.lh|
    case _ => 0
  }

  ghost predicate HeadMatchesPhase(w: World)
    requires HeaderOk(w)
  {
    && (w.phase.Running? || w.phase.WritingLog? || w.phase.WritingHead? ==> Head(w.disk[w.start]) == [])
    && (w.phase.Installing? || w.phase.Erasing? || w.phase.Recovering? || w.phase.Recovered? ==>
          Head(w.disk[w.start]) == w.lh)
    && (w.phase.WritingLog? || w.phase.Installing? || w.phase.Recovering? ==> w.phase.i < |w.lh|)
    && (w.phase.Booting? ==> w.lh == [])
    && (w.phase.WritingHead? ==> w.lh != [])
    && |w.lh| <= LOGBLOCKS
  }

  /** The log blocks written so far hold what the cache holds. */
  ghost predicate CopiesOk(w: World)
    requires HeaderOk(w) && |w.lh| <= LOGBLOCKS
  {
    forall j, b: BufId :: 0 <= j < |w.lh| && j < Logged(w) && Caches(w, b, w.lh[j]) ==>
      w.cache.bufs[b].data == w.disk[w.start + 1 + j]
  }

  /** The home blocks installed so far hold what the log holds. */
  ghost predicate InstalledOk(w: World)
    requires HeaderOk(w) && |w.lh| <= LOGBLOCKS
  {
    forall j :: 0 <= j < |w.lh| && j < Installed(w) ==>
      w.lh[j] < |w.disk| && w.disk[w.lh[j]] == w.disk[w.start + 1 + j]
  }

  ghost predicate LogOk(w: World) {
    HeaderOk(w) && HeadMatchesPhase(w) && CopiesOk(w) && InstalledOk(w)
  }

  ghost predicate Inv(w: World) {
    OpsOk(w) && LogOk(w) && CacheOk(w)
  }
}
