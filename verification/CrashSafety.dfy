/** The storage stack is an atomic disk: over every run, with a crash possible
    between any two block writes of commit and of recovery, what survives is
    exactly what was visible at the last commit point. */
module CrashSafety {
  import opened Common
  import opened Blocks
  import opened BufferCache
  import opened Storage
  import opened StorageSafety

  /** What the stack stands for: the contents that survive a crash and the
      contents that file system calls see. */
  datatype Atomic = Atomic(durable: seq<Block>, visible: seq<Block>)

  datatype Event = Update(blockno: nat, data: Block) | Commit | PowerLoss | Internal

  ghost function Abs(w: World): (a: Atomic)
    requires HeaderOk(w)
  {
    Atomic(Durable(w), Visible(w))
  }

  function EventOf(w: World, s: Step): (e: Event) {
    match s
    case Modify(_, b, data) => Event.Update(w.cache.bufs[b].blockno, data)
    case CommitHead(_) => Commit
    case Crash => PowerLoss
    case _ => Internal
  }

  /** The specification: writes are visible at once, a commit makes everything
      visible durable at once, a power loss falls back to what is durable. */
  function Apply(a: Atomic, e: Event): (r: Atomic) {
    match e
    case Update(n, d) => if n < |a.visible| then a.(visible := a.visible[n := d]) else a
    case Commit => a.(durable := a.visible)
    case PowerLoss => a.(visible := a.durable)
    case Internal => a
  }

  /** Steps of the buffer cache. */
  lemma CacheRefines(w: World, s: Step)
    requires Inv(w) && Enabled(w, s) && (s.Lookup? || s.Lock? || s.Fill? || s.Unlock? || s.Drop?)
    ensures Inv(Next(w, s)) && Abs(Next(w, s)) == Abs(w)
  {
    match s
    case Lookup(n) => LookupQuiet(w, n); QuietStep(w, s);
    case Lock(b) => LockQuiet(w, b); QuietStep(w, s);
    case Fill(b) => FillQuiet(w, b); QuietStep(w, s);
    case Unlock(b) => UnlockQuiet(w, b); QuietStep(w, s);
    case Drop(b) => DropQuiet(w, b); QuietStep(w, s);
  }

  /** Steps of file system operations. */
  lemma OperationRefines(w: World, s: Step)
    requires Inv(w) && Enabled(w, s) && (s.BeginOp? || s.Modify? || s.LogWrite? || s.EndOp?)
    ensures Inv(Next(w, s)) && Abs(Next(w, s)) == Apply(Abs(w), EventOf(w, s))
  {
    match s
    case BeginOp(p) => StepBeginOp(w, p);
    case Modify(p, b, data) => StepModify(w, p, b, data);
    case LogWrite(p, b) => StepLogWrite(w, p, b);
    case EndOp(p) => StepEndOp(w, p);
  }

  /** Every step keeps the invariant and does to the atomic disk exactly what its
      event says. */
  lemma StepRefines(w: World, s: Step)
    requires Inv(w) && Enabled(w, s)
    ensures Inv(Next(w, s)) && Abs(Next(w, s)) == Apply(Abs(w), EventOf(w, s))
  {
    if s.Lookup? || s.Lock? || s.Fill? || s.Unlock? || s.Drop? {
      CacheRefines(w, s);
    } else if s.BeginOp? || s.Modify? || s.LogWrite? || s.EndOp? {
      OperationRefines(w, s);
    } else if s.CopyToLog? || s.CommitHead? {
      CommitRefines(w, s);
    } else if s.Install? || s.EraseHead? {
      InstallRefines(w, s);
    } else {
      RecoveryRefines(w, s);
    }
  }

  /** Steps of commit up to the header. */
  lemma CommitRefines(w: World, s: Step)
    requires Inv(w) && Enabled(w, s) && (s.CopyToLog? || s.CommitHead?)
    ensures Inv(Next(w, s)) && Abs(Next(w, s)) == Apply(Abs(w), EventOf(w, s))
  {
    match s
    case CopyToLog(to, from) => StepCopyToLog(w, to, from);
    case CommitHead(hb) => StepCommitHead(w, hb);
  }

  /** And those after it. */
  lemma InstallRefines(w: World, s: Step)
    requires Inv(w) && Enabled(w, s) && (s.Install? || s.EraseHead?)
    ensures Inv(Next(w, s)) && Abs(Next(w, s)) == Apply(Abs(w), EventOf(w, s))
  {
    match s
    case Install(lbuf, dbuf) => StepInstall(w, lbuf, dbuf);
    case EraseHead(hb) => StepEraseHead(w, hb);
  }

  /** A crash, and the steps of recovery. */
  lemma RecoveryRefines(w: World, s: Step)
    requires Inv(w) && Enabled(w, s) && (s.Crash? || s.ReadHead? || s.Recover? || s.RecoverHead?)
    ensures Inv(Next(w, s)) && Abs(Next(w, s)) == Apply(Abs(w), EventOf(w, s))
  {
    match s
    case Crash => StepCrash(w);
    case ReadHead(hb) => StepReadHead(w, hb);
    case Recover(lbuf, dbuf) => StepRecover(w, lbuf, dbuf);
    case RecoverHead(hb) => StepRecoverHead(w, hb);
  }

  lemma QuietStep(w: World, s: Step)
    requires Inv(w) && Enabled(w, s) && Quiet(w, Next(w, s)) && EventOf(w, s).Internal?
    ensures Inv(Next(w, s)) && Abs(Next(w, s)) == Abs(w)
  {
    QuietInv(w, Next(w, s));
    QuietSame(w, Next(w, s));
  }

  // ----- runs -----

  /** A disk as mkfs leaves it, or any disk with a well-formed header, before boot. */
  ghost predicate PoweredOff(w: World) {
    && HeaderOk(w) && w.phase.Booting? && w.lh == [] && w.cache == Init()
    && w.users == seq(NBUF, _ => 0) && w.ops == seq(NPROC, _ => Out) && w.dirty == map[]
  }

  ghost predicate IsRun(ws: seq<World>, ss: seq<Step>) {
    && |ws| == |ss| + 1
    && PoweredOff(ws[0])
    && forall i :: 0 <= i < |ss| ==> StepAt(ws, ss, i)
  }

  ghost predicate StepAt(ws: seq<World>, ss: seq<Step>, i: nat)
    requires i < |ss| < |ws|
  {
    Enabled(ws[i], ss[i]) && ws[i + 1] == Next(ws[i], ss[i])
  }

  lemma PoweredOffInv(w: World)
    requires PoweredOff(w)
    ensures Inv(w)
  {
    InitShape();
    UnspentBounds(w.ops);
    forall b: BufId ensures BufferOk(w, b) {}
  }

  lemma {:induction false} EveryRunKeepsInv(ws: seq<World>, ss: seq<Step>, i: nat)
    requires IsRun(ws, ss) && i < |ws|
    ensures Inv(ws[i])
  {
    if i == 0 {
      PoweredOffInv(ws[0]);
    } else {
      EveryRunKeepsInv(ws, ss, i - 1);
      assert StepAt(ws, ss, i - 1);
      StepRefines(ws[i - 1], ss[i - 1]);
    }
  }

  ghost predicate Readable(ws: seq<World>) {
    forall i :: 0 <= i < |ws| ==> HeaderOk(ws[i])
  }

  lemma EveryRunReadable(ws: seq<World>, ss: seq<Step>)
    requires IsRun(ws, ss)
    ensures Readable(ws)
  {
    forall i | 0 <= i < |ws| ensures HeaderOk(ws[i]) { EveryRunKeepsInv(ws, ss, i); }
  }

  /** The contents visible at the last commit point before time k: the last
      write_head that commits, or what the disk held at the start. */
  ghost function LastCommitted(ws: seq<World>, ss: seq<Step>, k: nat): (r: seq<Block>)
    requires Readable(ws) && |ws| == |ss| + 1 && k < |ws|
  {
    if k == 0 then Durable(ws[0])
    else if ss[k - 1].CommitHead? then Visible(ws[k - 1])
    else LastCommitted(ws, ss, k - 1)
  }

  /** What survives a crash changes at the committing write_head and at no
      other step. */
  lemma StepDurable(w: World, s: Step, w': World)
    requires Inv(w) && Enabled(w, s) && w' == Next(w, s)
    ensures HeaderOk(w') && Durable(w') == if s.CommitHead? then Visible(w) else Durable(w)
  {
    StepRefines(w, s);
    EventDurable(Abs(w), w, s);
  }

  lemma EventDurable(a: Atomic, w: World, s: Step)
    ensures Apply(a, EventOf(w, s)).durable == if s.CommitHead? then a.visible else a.durable
  {}

  lemma {:induction false} DurableIsLastCommitted(ws: seq<World>, ss: seq<Step>, k: nat)
    requires IsRun(ws, ss) && Readable(ws) && k < |ws|
    ensures Durable(ws[k]) == LastCommitted(ws, ss, k)
  {
    if k > 0 {
      EveryRunKeepsInv(ws, ss, k - 1);
      DurableIsLastCommitted(ws, ss, k - 1);
      assert StepAt(ws, ss, k - 1);
      StepDurable(ws[k - 1], ss[k - 1], ws[k]);
    }
  }

  /** While recovery runs, and however often it is itself interrupted, nothing
      new commits. */
  lemma {:induction false} NothingCommitsInRecovery(ws: seq<World>, ss: seq<Step>, k: nat, m: nat)
    requires IsRun(ws, ss) && Readable(ws) && k < m < |ws|
    requires ss[k] == Crash && forall i :: k < i < m ==> InRecovery(ws[i])
    ensures LastCommitted(ws, ss, m) == LastCommitted(ws, ss, k)
    decreases m
  {
    assert StepAt(ws, ss, k);
    if m > k + 1 {
      assert InRecovery(ws[m - 1]) && StepAt(ws, ss, m - 1);
      assert !ss[m - 1].CommitHead?;
      NothingCommitsInRecovery(ws, ss, k, m - 1);
    }
  }

  /** Crash atomicity: crash at any time k, recover with any number of further
      crashes on the way; when recovery completes at time m, every home block on
      the disk holds what was visible at the last commit point before k, and
      that is also what file system calls then see. */
  lemma CrashAtomicity(ws: seq<World>, ss: seq<Step>, k: nat, m: nat)
    requires IsRun(ws, ss) && k < m < |ws|
    requires ss[k] == Crash && (forall i :: k < i < m ==> InRecovery(ws[i])) && ws[m].phase.Running?
    ensures Readable(ws) && |LastCommitted(ws, ss, k)| == |ws[m].disk|
    ensures forall n: nat :: IsHome(ws[m], n) ==> ws[m].disk[n] == LastCommitted(ws, ss, k)[n]
    ensures Visible(ws[m]) == LastCommitted(ws, ss, k)
  {
    EveryRunReadable(ws, ss);
    NothingCommitsInRecovery(ws, ss, k, m);
    DurableIsLastCommitted(ws, ss, m);
    LastRecoveryStep(ws, ss, k, m);
  }

  lemma LastRecoveryStep(ws: seq<World>, ss: seq<Step>, k: nat, m: nat)
    requires IsRun(ws, ss) && k < m < |ws|
    requires ss[k] == Crash && (forall i :: k < i < m ==> InRecovery(ws[i])) && ws[m].phase.Running?
    ensures Inv(ws[m]) && Visible(ws[m]) == Durable(ws[m])
    ensures forall n: nat :: IsHome(ws[m], n) ==> ws[m].disk[n] == Durable(ws[m])[n]
  {
    assert StepAt(ws, ss, k) && StepAt(ws, ss, m - 1);
    assert m - 1 > k && InRecovery(ws[m - 1]);
    EveryRunKeepsInv(ws, ss, m - 1);
    RecoveryEnds(ws[m - 1], ss[m - 1], ws[m]);
  }

  lemma RecoveryEnds(w: World, s: Step, w': World)
    requires Inv(w) && InRecovery(w) && Enabled(w, s) && w' == Next(w, s) && w'.phase.Running?
    ensures Inv(w') && Visible(w') == Durable(w')
    ensures forall n: nat :: IsHome(w', n) ==> w'.disk[n] == Durable(w')[n]
  {
    StepRefines(w, s);
    RecoveryVisible(w);
    forall n: nat | IsHome(w', n) ensures w'.disk[n] == Durable(w')[n] {
      assert Durable(w')[n] == DurableAt(w', n);
    }
  }

  /** An operation is never split by a commit: between begin_op and end_op of
      any process no commit happens, nor is a modified block then unlogged. */
  lemma CommitOutsideOperations(w: World, s: Step, p: Proc)
    requires Inv(w) && Enabled(w, s) && (s.CopyToLog? || s.CommitHead? || s.Install? || s.EraseHead?)
    ensures w.ops[p].Out? && forall b: BufId :: b !in w.dirty
  {
    forall b: BufId ensures b !in w.dirty { NothingDirty(w, b); }
  }

  /** A locked buffer that bread returned holds the latest contents. */
  lemma ReadsLatest(w: World, b: BufId, n: nat)
    requires Inv(w) && !InRecovery(w) && IsHome(w, n) && Has(w, b, n)
    ensures w.cache.bufs[b].data == Visible(w)[n]
  {
    ContentCached(w, b, n);
    assert VisibleAt(w, n) == Content(w, n);
  }

  /** The log pins exactly the blocks in lh: outside commit, a buffer has one
      reference more than it has users if and only if lh names its block. */
  lemma PinnedExactlyLogged(w: World, b: BufId)
    requires Inv(w) && w.phase.Running?
    ensures w.cache.bufs[b].refcnt == w.users[b] + 1 <==>
            w.cache.bufs[b].dev == DEV && w.cache.bufs[b].blockno in w.lh
    ensures w.cache.bufs[b].refcnt == w.users[b] <==>
            !(w.cache.bufs[b].dev == DEV && w.cache.bufs[b].blockno in w.lh)
  {
    assert BufferOk(w, b);
  }
}
