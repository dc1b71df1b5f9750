/** The operations of the file system as they run over the buffer cache and the log: begin_op, for each
    block bread, a change, log_write and brelse, and end_op. */
module FsDriver {
  import opened Common
  import opened Blocks
  import opened BufferCache
  import opened LogHeader
  import opened Storage
  import opened CrashSafety
  import opened LogRoom
  import opened LogDriver
  import FsDisk

  lemma ModifyEffect(w: World, p: Proc, b: BufId, x: Block, others: set<BufId>)
    requires CanModify(w, p, b) && b !in others && LockedAre(w, others + {b})
    ensures var w' := DoModify(w, p, b, x);
      && LockedAre(w', others + {b}) && AllSame(w, w', others) && CanModify(w', p, b)
      && w'.lh == w.lh && w'.ops == w.ops && w'.users == w.users
      && w'.start == w.start && w'.disk == w.disk && w'.phase == w.phase
      && w'.cache.bufs[b].blockno == w.cache.bufs[b].blockno
  {}

  lemma LogWriteEffect(w: World, p: Proc, b: BufId, others: set<BufId>)
    requires CanLogWrite(w, p, b) && b !in others && LockedAre(w, others + {b})
    ensures var w', n := DoLogWrite(w, p, b), w.cache.bufs[b].blockno;
      && LockedAre(w', others + {b}) && AllSame(w, w', others) && b !in w'.dirty && w'.cache.bufs[b].valid
      && w'.start == w.start && w'.disk == w.disk && w'.phase == w.phase && w'.users == w.users
      && w'.ops == w.ops[p := In(w.ops[p].added + (if n in w.lh then 0 else 1))]
      && |w'.lh| == |w.lh| + (if n in w.lh then 0 else 1) && forall m :: m in w'.lh <==> m in w.lh || m == n
  {}

  /** A change to a buffer that p holds, and log_write. */
  method ChangeBlock(log: Log, p: Proc, b: BufId, n: nat, x: Block, ghost others: set<BufId>)
    requires log.Valid() && CanLogWrite(log.w, p, b) && b !in others && LockedAre(log.w, others + {b})
    requires b !in log.w.dirty && n == log.w.cache.bufs[b].blockno
    modifies log
    ensures log.Valid() && old(log.ss) <= log.ss && LockedAre(log.w, others + {b}) && log.w.cache.bufs[b].valid
    ensures Wrote(old(log.w), log.w, p, n, x, others) && log.w.users == old(log.w).users
  {
    ghost var w0 := log.w;
    ModifyEffect(log.w, p, b, x, others);
    log.Take(Modify(p, b, x));
    ghost var w1 := log.w;
    LogWriteEffect(log.w, p, b, others);
    log.LogBlock(p, b);
    AllSameTrans(w0, w1, log.w, others);
    SameDirty(w0.dirty, b, p);
  }

  lemma SameDirty(dirty: map<BufId, nat>, b: BufId, p: nat)
    requires b !in dirty
    ensures dirty[b := p] - {b} == dirty
  {}

  /** Block n has been changed to x and logged by p; what other processes hold stays as it is. */
  ghost predicate Wrote(w: World, w': World, p: Proc, n: nat, x: Block, others: set<BufId>) {
    && HeaderOk(w) && HeaderOk(w') && n < |Visible(w)| && Visible(w') == Visible(w)[n := x]
    && AllSame(w, w', others) && w'.start == w.start && w'.disk == w.disk && w'.phase == w.phase && w'.dirty == w.dirty
    && w.ops[p].In? && w'.ops == w.ops[p := In(w.ops[p].added + (if n in w.lh then 0 else 1))]
    && |w'.lh| == |w.lh| + (if n in w.lh then 0 else 1) && forall m :: m in w'.lh <==> m in w.lh || m == n
  }

  /** The change of one block: bread, the change, log_write, brelse. None of the panics happens but that of
      bread, if no buffer is free. */
  method Put(log: Log, p: Proc, n: nat, x: Block, ghost others: set<BufId>) returns (ok: bool)
    requires log.Valid() && LockedAre(log.w, others) && NoneHolds(log.w, others, n)
    requires log.w.ops[p].In? && log.w.ops[p].added < MAXOPBLOCKS && IsHome(log.w, n) && n < 0x1_0000_0000
    modifies log
    ensures log.Valid() && old(log.ss) <= log.ss
    ensures !ok ==> Abs(log.w) == Abs(old(log.w)) && Busy(log.w)
    ensures NoUsers(old(log.w)) ==> ok && NoUsers(log.w)
    ensures ok ==> LockedAre(log.w, others) && Wrote(old(log.w), log.w, p, n, x, others)
  {
    ghost var w0 := log.w;
    SpaceLeft(w0, p);
    if NoUsers(w0) { RoomyFinds(w0, n); }
    var r := log.Bread(n, others);
    if r == None { return false; }
    var b := r.value;
    ghost var w1 := log.w;
    assert b !in w1.dirty by { assert BufferOk(w0, b); }
    ChangeBlock(log, p, b, n, x, others);
    ghost var w2 := log.w;
    log.Brelse(b, others + {b});
    assert others + {b} - {b} == others;
    AllSameTrans(w0, w1, w2, others);
    AllSameTrans(w0, w2, log.w, others);
    UsersBack(w0.users, b);
    ok := true;
  }

  // ----- a whole operation -----

  /** p has made the writes us in its operation, starting from w. */
  ghost predicate Making(w: World, w': World, p: Proc, us: seq<FsDisk.Write>, others: set<BufId>) {
    && HeaderOk(w) && HeaderOk(w') && Visible(w') == FsDisk.Replay(Visible(w), us)
    && AllSame(w, w', others) && LockedAre(w', others)
    && w'.start == w.start && w'.disk == w.disk && w'.phase == w.phase && w'.dirty == w.dirty
    && w'.ops[p].In? && w'.ops[p].added <= |FsDisk.Targets(us)| && w'.ops == w.ops[p := w'.ops[p]]
    && (forall n :: n in w'.lh <==> n in w.lh || n in FsDisk.Targets(us))
  }

  lemma MakingNext(w: World, w1: World, w2: World, p: Proc, us: seq<FsDisk.Write>, u: FsDisk.Write, others: set<BufId>)
    requires Making(w, w1, p, us, others) && LockedAre(w2, others) && Wrote(w1, w2, p, u.n, u.x, others)
    ensures Making(w, w2, p, us + [u], others)
  {
    assert (us + [u])[..|us|] == us;
    FsDisk.TargetsMore(us, u);
    AllSameTrans(w, w1, w2, others);
  }

  /** The blocks that us writes are outside the log, and nobody else holds them. */
  ghost predicate Writable(w: World, us: seq<FsDisk.Write>, others: set<BufId>) {
    forall u :: u in us ==> IsHome(w, u.n) && u.n < 0x1_0000_0000 && NoneHolds(w, others, u.n)
  }

  lemma StaysWritable(w: World, w': World, us: seq<FsDisk.Write>, others: set<BufId>, u: FsDisk.Write)
    requires Writable(w, us, others) && AllSame(w, w', others) && w'.start == w.start && w'.disk == w.disk && u in us
    ensures IsHome(w', u.n) && u.n < 0x1_0000_0000 && NoneHolds(w', others, u.n)
  {}

  /** begin_op changes nothing but the state of p. */
  lemma BeginEffect(w: World, p: Proc, us: seq<FsDisk.Write>, others: set<BufId>)
    requires Inv(w) && CanBeginOp(w, p) && Clear(w, others) && Writable(w, us, others)
    ensures var w' := DoBeginOp(w, p); LockedAre(w', others) && Writable(w', us, others) && (NoUsers(w) ==> NoUsers(w'))
  {}

  /** What holds when the writes of the operation that p began in w are made. */
  ghost predicate Written(w: World, w': World, p: Proc, us: seq<FsDisk.Write>, others: set<BufId>) {
    && HeaderOk(w) && HeaderOk(w') && Visible(w') == FsDisk.Replay(Visible(w), us)
    && w'.disk == w.disk && w'.start == w.start && w'.phase == w.phase
    && Clear(w', others) && CanEndOp(w', p) && w'.ops[p].added < MAXOPBLOCKS && w'.ops == w.ops[p := w'.ops[p]]
  }

  lemma AllWritten(w: World, w': World, p: Proc, us: seq<FsDisk.Write>, others: set<BufId>)
    requires Inv(w) && CanBeginOp(w, p) && Clear(w, others) && Writable(w, us, others)
    requires |FsDisk.Targets(us)| < MAXOPBLOCKS && Making(DoBeginOp(w, p), w', p, us, others)
    ensures Written(w, w', p, us, others)
  {
    NotDirty(w, p);
    StepRefines(w, BeginOp(p));
  }

  /** begin_op, the writes us, and end_op: an operation that writes fewer than MAXOPBLOCKS blocks makes
      exactly its writes visible, and log_write always has room. If nobody else is inside an operation, they are
      durable when end_op returns. */
  method Operation(log: Log, p: Proc, us: seq<FsDisk.Write>, ghost others: set<BufId>) returns (ok: bool)
    requires log.Valid() && Clear(log.w, others) && CanBeginOp(log.w, p) && Writable(log.w, us, others)
    requires |FsDisk.Targets(us)| < MAXOPBLOCKS
    modifies log
    ensures log.Valid() && old(log.ss) <= log.ss && (!ok ==> Busy(log.w)) && (NoUsers(old(log.w)) ==> ok)
    ensures ok ==> log.w.ops == old(log.w).ops && Clear(log.w, others)
    ensures ok ==> Visible(log.w) == FsDisk.Replay(Visible(old(log.w)), us)
    ensures ok ==> Durable(log.w) == if OnlyOne(old(log.w), p) then Visible(log.w) else old(Durable(log.w))
  {
    ok := BeginAndWrite(log, p, us, others);
    if !ok { return; }
    SpaceLeft(log.w, p);
    ok := log.EndOperation(p, others);
  }

  /** The operation up to its end_op. */
  method BeginAndWrite(log: Log, p: Proc, us: seq<FsDisk.Write>, ghost others: set<BufId>) returns (ok: bool)
    requires log.Valid() && Clear(log.w, others) && CanBeginOp(log.w, p) && Writable(log.w, us, others)
    requires |FsDisk.Targets(us)| < MAXOPBLOCKS
    modifies log
    ensures log.Valid() && old(log.ss) <= log.ss && (ok ==> Written(old(log.w), log.w, p, us, others))
    ensures !ok ==> Busy(log.w)
    ensures NoUsers(old(log.w)) ==> ok && NoUsers(log.w)
  {
    ghost var w0 := log.w;
    BeginEffect(w0, p, us, others);
    log.Take(BeginOp(p));
    ok := MakeWrites(log, p, us, others);
    if ok { AllWritten(w0, log.w, p, us, others); }
  }

  /** The writes of an operation. */
  method MakeWrites(log: Log, p: Proc, us: seq<FsDisk.Write>, ghost others: set<BufId>) returns (ok: bool)
    requires log.Valid() && LockedAre(log.w, others) && log.w.ops[p] == In(0) && Writable(log.w, us, others)
    requires |FsDisk.Targets(us)| < MAXOPBLOCKS
    modifies log
    ensures log.Valid() && old(log.ss) <= log.ss && (ok ==> Making(old(log.w), log.w, p, us, others))
    ensures !ok ==> Busy(log.w)
    ensures NoUsers(old(log.w)) ==> ok && NoUsers(log.w)
  {
    ghost var w1 := log.w;
    assert us[..0] == [];
    var k := 0;
    while k < |us|
      invariant k <= |us| && log.Valid() && old(log.ss) <= log.ss && Making(w1, log.w, p, us[..k], others)
      invariant NoUsers(w1) ==> NoUsers(log.w)
    {
      ghost var w2 := log.w;
      StaysWritable(w1, w2, us, others, us[k]);
      SmallPrefix(us, k);
      ok := Put(log, p, us[k].n, us[k].x, others);
      if !ok { return; }
      MakingNext(w1, w2, log.w, p, us[..k], us[k], others);
      assert us[..k] + [us[k]] == us[..k + 1];
      k := k + 1;
    }
    assert us[..k] == us;
    ok := true;
  }

  lemma SmallPrefix(us: seq<FsDisk.Write>, k: nat)
    requires k <= |us|
    ensures |FsDisk.Targets(us[..k])| <= |FsDisk.Targets(us)|
  {
    forall n | n in FsDisk.Targets(us[..k])
      ensures n in FsDisk.Targets(us)
    {
      var j :| 0 <= j < k && us[..k][j].n == n;
      assert us[j].n == n;
    }
    SubsetSize(FsDisk.Targets(us[..k]), FsDisk.Targets(us));
  }

  /** A process outside operations has no modified block that is not logged. */
  lemma NotDirty(w: World, p: Proc)
    requires Inv(w) && w.ops[p].Out?
    ensures forall b :: b in w.dirty ==> w.dirty[b] != p
  {
    forall b | b in w.dirty
      ensures w.dirty[b] != p
    {
      assert BufferOk(w, b);
    }
  }

  // ----- a log that cannot be committed -----

  /** The n blocks from first on can be logged, and are not yet. */
  ghost predicate Fresh(w: World, first: nat, n: nat) {
    forall m: nat :: first <= m < first + n ==> IsHome(w, m) && m < 0x1_0000_0000 && m !in w.lh
  }

  /** Nobody uses a buffer, and p is inside an operation that has logged k blocks. */
  ghost predicate Alone(w: World, p: Proc, k: nat) { LockedAre(w, {}) && NoUsers(w) && w.ops[p] == In(k) }

  /** p has logged k blocks from first on. */
  ghost predicate Logged(w: World, w': World, p: Proc, first: nat, k: nat) {
    && Alone(w', p, k) && w'.start == w.start && w'.disk == w.disk && w'.phase == w.phase && w'.dirty == w.dirty
    && w'.ops == w.ops[p := In(k)] && |w'.lh| == |w.lh| + k
    && forall m :: m in w'.lh <==> m in w.lh || first <= m < first + k
  }

  /** An operation that logs as many blocks as it may. */
  method LogTen(log: Log, p: Proc, first: nat, x: Block)
    requires log.Valid() && Alone(log.w, p, 0) && Fresh(log.w, first, MAXOPBLOCKS)
    modifies log
    ensures log.Valid() && old(log.ss) <= log.ss && Logged(old(log.w), log.w, p, first, MAXOPBLOCKS)
  {
    ghost var w0 := log.w;
    var k := 0;
    while k < MAXOPBLOCKS
      invariant k <= MAXOPBLOCKS && log.Valid() && old(log.ss) <= log.ss && Logged(w0, log.w, p, first, k)
    {
      assert IsHome(w0, first + k);
      assert IsHome(log.w, first + k) && first + k !in log.w.lh;
      var _ := Put(log, p, first + k, x, {});
      k := k + 1;
    }
  }

  /** Nobody is inside an operation or uses a buffer, and nothing is logged. */
  ghost predicate Idle(w: World) {
    w.phase.Running? && w.lh == [] && LockedAre(w, {}) && NoUsers(w) && forall q: Proc :: w.ops[q].Out?
  }

  /** Processes 0 .. n - 1 have begun operations. */
  ghost predicate Begun(w: World, w': World, n: nat) {
    && w'.(ops := w.ops) == w
    && forall q: Proc :: w'.ops[q] == if q < n then In(0) else w.ops[q]
  }

  /** begin_op lets three processes in at once. */
  method BeginThree(log: Log)
    requires log.Valid() && Idle(log.w)
    modifies log
    ensures log.Valid() && old(log.ss) <= log.ss && Begun(old(log.w), log.w, 3)
  {
    ghost var w0 := log.w;
    var n := 0;
    while n < 3
      invariant n <= 3 && log.Valid() && old(log.ss) <= log.ss && Begun(w0, log.w, n)
    {
      ThreeAtOnce(log.w, n, Below(n));
      log.Take(BeginOp(n));
      n := n + 1;
    }
  }

  lemma StaysFresh(w: World, w': World, first: nat, from: nat, n: nat)
    requires Fresh(w, first, LOGBLOCKS) && first <= from && from + n <= first + LOGBLOCKS
    requires w'.start == w.start && w'.disk == w.disk && forall m :: m in w'.lh <==> m in w.lh || first <= m < from
    ensures Fresh(w', from, n)
  {
    forall m: nat | from <= m < from + n ensures IsHome(w', m) && m < 0x1_0000_0000 && m !in w'.lh {
      assert IsHome(w, m);
    }
  }

  /** Three operations that each log as many blocks as they may fill the log, and the commit panics: bget finds no
      buffer. */
  method FullLog(log: Log, first: nat, x: Block) returns (ok: bool)
    requires log.Valid() && Idle(log.w) && Fresh(log.w, first, LOGBLOCKS)
    modifies log
    ensures log.Valid() && old(log.ss) <= log.ss && !ok && Busy(log.w)
  {
    ghost var w0 := log.w;
    NotDirty(w0, 0);
    NotDirty(w0, 1);
    NotDirty(w0, 2);
    BeginThree(log);
    ghost var w1 := log.w;
    StaysFresh(w0, w1, first, first, MAXOPBLOCKS);
    LogTen(log, 0, first, x);
    StaysFresh(w0, log.w, first, first + MAXOPBLOCKS, MAXOPBLOCKS);
    LogTen(log, 1, first + MAXOPBLOCKS, x);
    StaysFresh(w0, log.w, first, first + 2 * MAXOPBLOCKS, MAXOPBLOCKS);
    LogTen(log, 2, first + 2 * MAXOPBLOCKS, x);
    ghost var w2 := log.w;
    assert |w2.lh| == NBUF;
    ok := EndThree(log);
  }

  /** An end_op while another operation is in progress. */
  lemma EndMiddle(w: World, p: Proc, q: Proc)
    requires Inv(w) && CanEndOp(w, p) && p != q && w.ops[q].In?
    ensures Next(w, EndOp(p)) == w.(ops := w.ops[p := Out])
  {
    EndOpCommits(w, p);
  }

  /** The three operations end; the last end_op commits. */
  method EndThree(log: Log) returns (ok: bool)
    requires log.Valid() && LockedAre(log.w, {}) && NoUsers(log.w) && |log.w.lh| == NBUF
    requires forall b :: b in log.w.dirty ==> log.w.dirty[b] > 2
    requires forall q: Proc :: log.w.ops[q].In? <==> q < 3
    modifies log
    ensures log.Valid() && old(log.ss) <= log.ss && !ok && Busy(log.w)
  {
    EndMiddle(log.w, 0, 2);
    log.Take(EndOp(0));
    EndMiddle(log.w, 1, 2);
    log.Take(EndOp(1));
    ok := log.EndOperation(2, {});
  }
}
