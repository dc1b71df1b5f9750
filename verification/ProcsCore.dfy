/** Every step of every thread keeps lock ownership and the scheduler hand-off. */
module ProcsCore {
  import opened Common
  import opened Procs
  import opened ProcsInv
  import opened ProcsMoves

  // ----- each piece of code takes and gives up the locks it should -----

  lemma EnterLocks(s: State, p: nat, m: Move)
    requires p < NPROC && EnterMove(s, p, m)
    ensures LockStep(p, s.procs[p].pc, m.self.pc, m.op)
  {}

  lemma YieldLocks(s: State, p: nat, m: Move)
    requires p < NPROC && PcWf(p, s.procs[p].pc) && YieldMove(s, p, m)
    ensures LockStep(p, s.procs[p].pc, m.self.pc, m.op)
  {}

  lemma SleepLocks(s: State, p: nat, m: Move)
    requires p < NPROC && PcWf(p, s.procs[p].pc) && SleepMove(s, p, m)
    ensures LockStep(p, s.procs[p].pc, m.self.pc, m.op)
  {}

  lemma WakeLocks(s: State, p: nat, m: Move)
    requires p < NPROC && PcWf(p, s.procs[p].pc) && WakeMove(s, p, m)
    ensures LockStep(p, s.procs[p].pc, m.self.pc, m.op)
  {}

  lemma SleepLockLocks(s: State, p: nat, m: Move)
    requires p < NPROC && SleepLockMove(s, p, m)
    ensures LockStep(p, s.procs[p].pc, m.self.pc, m.op)
  {}

  lemma CritLocks(s: State, p: nat, m: Move)
    requires p < NPROC && CritMove(s, p, m)
    ensures LockStep(p, s.procs[p].pc, m.self.pc, m.op)
  {}

  lemma ForkLocks(s: State, p: nat, m: Move)
    requires p < NPROC && ForkMove(s, p, m)
    ensures LockStep(p, s.procs[p].pc, m.self.pc, m.op)
  {}

  lemma ExitLocks(s: State, p: nat, m: Move)
    requires p < NPROC && ExitMove(s, p, m)
    ensures LockStep(p, s.procs[p].pc, m.self.pc, m.op)
  {}

  lemma ScanLocks(s: State, p: nat, m: Move)
    requires p < NPROC && WaitMove(s, p, m) && InScan(s.procs[p].pc)
    ensures LockStep(p, s.procs[p].pc, m.self.pc, m.op)
  {}

  lemma WaitLocks(s: State, p: nat, m: Move)
    requires p < NPROC && WaitMove(s, p, m)
    ensures LockStep(p, s.procs[p].pc, m.self.pc, m.op)
  {
    if InScan(s.procs[p].pc) { ScanLocks(s, p, m); }
  }

  lemma KillLocks(s: State, p: nat, m: Move)
    requires p < NPROC && KillMove(s, p, m)
    ensures LockStep(p, s.procs[p].pc, m.self.pc, m.op)
  {}

  lemma EnterFlow(s: State, p: nat, m: Move)
    requires p < NPROC && PcWf(p, s.procs[p].pc) && EnterMove(s, p, m)
    ensures PcWf(p, m.self.pc)
  {}

  lemma YieldFlow(s: State, p: nat, m: Move)
    requires p < NPROC && PcWf(p, s.procs[p].pc) && YieldMove(s, p, m)
    ensures PcWf(p, m.self.pc)
  {}

  lemma SleepFlow(s: State, p: nat, m: Move)
    requires p < NPROC && PcWf(p, s.procs[p].pc) && SleepMove(s, p, m)
    ensures PcWf(p, m.self.pc)
  {}

  lemma WakeFlow(s: State, p: nat, m: Move)
    requires p < NPROC && PcWf(p, s.procs[p].pc) && WakeMove(s, p, m)
    ensures PcWf(p, m.self.pc)
  {}

  lemma SleepLockFlow(s: State, p: nat, m: Move)
    requires p < NPROC && PcWf(p, s.procs[p].pc) && SleepLockMove(s, p, m)
    ensures PcWf(p, m.self.pc)
  {}

  lemma CritFlow(s: State, p: nat, m: Move)
    requires p < NPROC && PcWf(p, s.procs[p].pc) && CritMove(s, p, m)
    ensures PcWf(p, m.self.pc)
  {}

  lemma ForkFlow(s: State, p: nat, m: Move)
    requires p < NPROC && PcWf(p, s.procs[p].pc) && ForkMove(s, p, m)
    requires Active(s.procs[p])
    ensures PcWf(p, m.self.pc)
  {}

  lemma ExitFlow(s: State, p: nat, m: Move)
    requires p < NPROC && PcWf(p, s.procs[p].pc) && ExitMove(s, p, m)
    requires s.procs[p].parent != Some(p)
    ensures PcWf(p, m.self.pc)
  {}

  /** kwait is going through the table. */
  predicate InScan(pc: Pc) { pc.WaitScan? || pc.WaitLock? || pc.WaitCheck? || pc.WaitNext? }

  lemma ScanFlow(s: State, p: nat, m: Move)
    requires p < NPROC && PcWf(p, s.procs[p].pc) && WaitMove(s, p, m) && InScan(s.procs[p].pc)
    requires s.procs[p].parent != Some(p)
    ensures PcWf(p, m.self.pc)
  {}

  lemma SleepInWait(s: State, p: nat, m: Move)
    requires p < NPROC && PcWf(p, s.procs[p].pc) && WaitMove(s, p, m) && s.procs[p].pc.WaitKillRel?
    ensures PcWf(p, m.self.pc)
  {}

  lemma WaitFlow(s: State, p: nat, m: Move)
    requires p < NPROC && PcWf(p, s.procs[p].pc) && WaitMove(s, p, m)
    requires s.procs[p].parent != Some(p)
    ensures PcWf(p, m.self.pc)
  {
    if InScan(s.procs[p].pc) { ScanFlow(s, p, m); }
    else if s.procs[p].pc.WaitKillRel? { SleepInWait(s, p, m); }
  }

  lemma KillFlow(s: State, p: nat, m: Move)
    requires p < NPROC && PcWf(p, s.procs[p].pc) && KillMove(s, p, m)
    ensures PcWf(p, m.self.pc)
  {}

  /** p stays RUNNING until it goes to yield, sleep or exit. */
  lemma StateFollows(s: State, p: nat, m: Move)
    requires p < NPROC && PcWf(p, s.procs[p].pc) && Active(s.procs[p])
    requires EnterMove(s, p, m) || YieldMove(s, p, m) || CritMove(s, p, m)
    ensures SelfOk(s.procs[p], m)
  {}

  lemma SleepStateFollows(s: State, p: nat, m: Move)
    requires p < NPROC && PcWf(p, s.procs[p].pc) && Active(s.procs[p])
    requires SleepMove(s, p, m) || WakeMove(s, p, m) || SleepLockMove(s, p, m)
    ensures SelfOk(s.procs[p], m)
  {}

  lemma ChildStateFollows(s: State, p: nat, m: Move)
    requires p < NPROC && PcWf(p, s.procs[p].pc) && Active(s.procs[p]) && (ForkMove(s, p, m) || WaitMove(s, p, m))
    ensures SelfOk(s.procs[p], m)
  {}

  lemma ExitStateFollows(s: State, p: nat, m: Move)
    requires p < NPROC && PcWf(p, s.procs[p].pc) && Active(s.procs[p]) && (ExitMove(s, p, m) || KillMove(s, p, m))
    ensures SelfOk(s.procs[p], m)
  {}

  lemma CallStateFollows(s: State, p: nat, m: Move)
    requires p < NPROC && PcWf(p, s.procs[p].pc) && Active(s.procs[p])
    requires ForkMove(s, p, m) || ExitMove(s, p, m) || WaitMove(s, p, m) || KillMove(s, p, m)
    ensures SelfOk(s.procs[p], m)
  {
    if ForkMove(s, p, m) || WaitMove(s, p, m) { ChildStateFollows(s, p, m); } else { ExitStateFollows(s, p, m); }
  }

  lemma LocksStep(s: State, p: nat, m: Move)
    requires p < NPROC && PcWf(p, s.procs[p].pc) && May(s, p, m)
    ensures LockStep(p, s.procs[p].pc, m.self.pc, m.op)
  {
    if EnterMove(s, p, m) { EnterLocks(s, p, m); }
    else if YieldMove(s, p, m) { YieldLocks(s, p, m); }
    else if SleepMove(s, p, m) { SleepLocks(s, p, m); }
    else if WakeMove(s, p, m) { WakeLocks(s, p, m); }
    else if SleepLockMove(s, p, m) { SleepLockLocks(s, p, m); }
    else if CritMove(s, p, m) { CritLocks(s, p, m); }
    else if ForkMove(s, p, m) { ForkLocks(s, p, m); }
    else if ExitMove(s, p, m) { ExitLocks(s, p, m); }
    else if WaitMove(s, p, m) { WaitLocks(s, p, m); }
    else { KillLocks(s, p, m); }
  }

  lemma PcStep(s: State, p: nat, m: Move)
    requires p < NPROC && PcWf(p, s.procs[p].pc) && Active(s.procs[p]) && May(s, p, m)
    requires s.procs[p].parent != Some(p)
    ensures PcWf(p, m.self.pc)
  {
    if EnterMove(s, p, m) { EnterFlow(s, p, m); }
    else if YieldMove(s, p, m) { YieldFlow(s, p, m); }
    else if SleepMove(s, p, m) { SleepFlow(s, p, m); }
    else if WakeMove(s, p, m) { WakeFlow(s, p, m); }
    else if SleepLockMove(s, p, m) { SleepLockFlow(s, p, m); }
    else if CritMove(s, p, m) { CritFlow(s, p, m); }
    else if ForkMove(s, p, m) { ForkFlow(s, p, m); }
    else if ExitMove(s, p, m) { ExitFlow(s, p, m); }
    else if WaitMove(s, p, m) { WaitFlow(s, p, m); }
    else { KillFlow(s, p, m); }
  }

  // ----- control flow -----

  lemma EnterPrev(s: State, p: nat, m: Move)
    requires p < NPROC && EnterMove(s, p, m)
    ensures Prev(p, s.procs[p].pc, m.self.pc)
  {}

  lemma YieldPrev(s: State, p: nat, m: Move)
    requires p < NPROC && YieldMove(s, p, m)
    ensures Prev(p, s.procs[p].pc, m.self.pc)
  {}

  lemma SleepPrev(s: State, p: nat, m: Move)
    requires p < NPROC && PcWf(p, s.procs[p].pc) && SleepMove(s, p, m)
    ensures Prev(p, s.procs[p].pc, m.self.pc)
  {}

  lemma WakePrev(s: State, p: nat, m: Move)
    requires p < NPROC && PcWf(p, s.procs[p].pc) && WakeMove(s, p, m)
    ensures Prev(p, s.procs[p].pc, m.self.pc)
  {}

  lemma SleepLockPrev(s: State, p: nat, m: Move)
    requires p < NPROC && SleepLockMove(s, p, m)
    ensures Prev(p, s.procs[p].pc, m.self.pc)
  {}

  lemma CritPrev(s: State, p: nat, m: Move)
    requires p < NPROC && CritMove(s, p, m)
    ensures Prev(p, s.procs[p].pc, m.self.pc)
  {}

  lemma ForkPrev(s: State, p: nat, m: Move)
    requires p < NPROC && ForkMove(s, p, m)
    ensures Prev(p, s.procs[p].pc, m.self.pc)
  {}

  lemma ExitPrev(s: State, p: nat, m: Move)
    requires p < NPROC && ExitMove(s, p, m)
    ensures Prev(p, s.procs[p].pc, m.self.pc)
  {}

  lemma WaitScanPrev(s: State, p: nat, m: Move)
    requires p < NPROC && WaitMove(s, p, m)
    requires s.procs[p].pc.WaitAcq? || s.procs[p].pc.WaitScan? || s.procs[p].pc.WaitNext? || s.procs[p].pc.WaitKillRel?
    ensures Prev(p, s.procs[p].pc, m.self.pc)
  {}

  lemma WaitPrev(s: State, p: nat, m: Move)
    requires p < NPROC && WaitMove(s, p, m)
    ensures Prev(p, s.procs[p].pc, m.self.pc)
  {
    var pc := s.procs[p].pc;
    if pc.WaitAcq? || pc.WaitScan? || pc.WaitNext? || pc.WaitKillRel? { WaitScanPrev(s, p, m); }
  }

  lemma KillPrev(s: State, p: nat, m: Move)
    requires p < NPROC && KillMove(s, p, m)
    ensures Prev(p, s.procs[p].pc, m.self.pc)
  {}

  lemma StepPrev(s: State, p: nat, m: Move)
    requires p < NPROC && PcWf(p, s.procs[p].pc) && May(s, p, m)
    ensures Prev(p, s.procs[p].pc, m.self.pc)
  {
    if EnterMove(s, p, m) { EnterPrev(s, p, m); }
    else if YieldMove(s, p, m) { YieldPrev(s, p, m); }
    else if SleepMove(s, p, m) { SleepPrev(s, p, m); }
    else if WakeMove(s, p, m) { WakePrev(s, p, m); }
    else if SleepLockMove(s, p, m) { SleepLockPrev(s, p, m); }
    else if CritMove(s, p, m) { CritPrev(s, p, m); }
    else if ForkMove(s, p, m) { ForkPrev(s, p, m); }
    else if ExitMove(s, p, m) { ExitPrev(s, p, m); }
    else if WaitMove(s, p, m) { WaitPrev(s, p, m); }
    else { KillPrev(s, p, m); }
  }

  /** Yielding does not change what the process was doing. */
  lemma PrevBase(p: nat, pc: Pc, next: Pc)
    requires PcWf(p, pc) && Prev(p, pc, next) && (IsYield(pc) || IsYield(next))
    ensures Base(next) == Base(pc)
  {
    if IsYield(next) { IntoYield(p, pc, next); } else { OutOfYield(p, pc, next); }
  }

  lemma IntoYield(p: nat, pc: Pc, next: Pc)
    requires PcWf(p, pc) && Prev(p, pc, next) && IsYield(next)
    ensures Base(next) == Base(pc)
  {}

  lemma OutOfYield(p: nat, pc: Pc, next: Pc)
    requires Prev(p, pc, next) && IsYield(pc) && !IsYield(next)
    ensures pc == YieldRel(next)
  {}

  // ----- what a move does to another process -----

  lemma QuietTouches(s: State, p: nat, m: Move)
    requires p < NPROC && (EnterMove(s, p, m) || YieldMove(s, p, m) || SleepMove(s, p, m) || SleepLockMove(s, p, m)
        || CritMove(s, p, m))
    ensures !m.other.Set?
  {}

  lemma CallTouches(s: State, p: nat, m: Move)
    requires p < NPROC && (WakeMove(s, p, m) || ExitMove(s, p, m) || KillMove(s, p, m)) && Unblocked(s, m)
        && m.other.Set?
    ensures Touch(s, p, m, m.other.i)
  {}

  lemma ChildTouches(s: State, p: nat, m: Move)
    requires p < NPROC && (ForkMove(s, p, m) || WaitMove(s, p, m)) && Unblocked(s, m) && m.other.Set?
    ensures Touch(s, p, m, m.other.i)
  {}

  lemma Touches(s: State, p: nat, m: Move)
    requires p < NPROC && May(s, p, m) && Unblocked(s, m) && m.other.Set?
    ensures Touch(s, p, m, m.other.i)
  {
    if ForkMove(s, p, m) || WaitMove(s, p, m) {
      ChildTouches(s, p, m);
    } else if WakeMove(s, p, m) || ExitMove(s, p, m) || KillMove(s, p, m) {
      CallTouches(s, p, m);
    } else {
      QuietTouches(s, p, m);
    }
  }

  lemma TouchElse(s: State, p: nat, m: Move, i: nat)
    requires p < NPROC && i < NPROC && PcWf(p, s.procs[p].pc) && Active(s.procs[p]) && Prepared(s, p)
    requires m.other.Set? && m.other.i == i && Touch(s, p, m, i)
    ensures i != p
  {}

  lemma TouchRests(s: State, p: nat, m: Move, i: nat)
    requires p < NPROC && i < NPROC && Prepared(s, p) && m.other.Set? && m.other.i == i && Touch(s, p, m, i)
    requires ProcLock(p, s.procs[p].pc) == Some(i) && s.procs[i].state != RUNNING ==>
               s.procs[i].on == None && Resting(s.procs[i]) && PcWf(i, s.procs[i].pc)
    ensures TouchOk(i, s.procs[i], m.other.x)
  {}

  lemma TouchesRest(s: State, c: nat, p: nat, m: Move)
    requires Core(s) && Runs(s, c, p) && Unblocked(s, m) && m.other.Set? && Prepared(s, p)
    requires Touch(s, p, m, m.other.i)
    ensures m.other.i != p && TouchOk(m.other.i, s.procs[m.other.i], m.other.x)
  {
    Here(s, c, p);
    var i := m.other.i;
    TouchElse(s, p, m, i);
    if ProcLock(p, s.procs[p].pc) == Some(i) && s.procs[i].state != RUNNING { FoundAtRest(s, c, p, i); }
    TouchRests(s, p, m, i);
  }

  lemma MoveCore(s: State, c: nat, p: nat, m: Move)
    requires Core(s) && Runs(s, c, p) && May(s, p, m) && Unblocked(s, m) && Prepared(s, p)
    ensures Core(Perform(s, c, p, m))
  {
    Here(s, c, p);
    LocksStep(s, p, m);
    PcStep(s, p, m);
    if ForkMove(s, p, m) || ExitMove(s, p, m) || WaitMove(s, p, m) || KillMove(s, p, m) {
      CallStateFollows(s, p, m);
    } else if SleepMove(s, p, m) || WakeMove(s, p, m) || SleepLockMove(s, p, m) {
      SleepStateFollows(s, p, m);
    } else {
      StateFollows(s, p, m);
    }
    if m.other.Set? {
      Touches(s, p, m);
      TouchesRest(s, c, p, m);
    }
    PerformCore(s, c, p, m);
  }

  // ----- the scheduler -----

  lemma SchedLocksHere(s: State, s': State, c: nat)
    requires Core(s) && c < NCPU && s.cpus[c].cur == None && SchedStep(s, s', c)
    ensures forall l: Lock :: l in s'.held && s'.held[l] == c <==> CpuHolds(s', c, l)
  {
    forall l: Lock ensures l in s'.held && s'.held[l] == c <==> CpuHolds(s', c, l) { SchedLockHere(s, s', c, l); }
  }

  lemma SchedLockHere(s: State, s': State, c: nat, l: Lock)
    requires Core(s) && c < NCPU && s.cpus[c].cur == None && SchedStep(s, s', c)
    ensures l in s'.held && s'.held[l] == c <==> CpuHolds(s', c, l)
  {
    assert CpuOk(s, c) && ProcOk(s, s.cpus[c].spc.i) && LockOk(s, c, l);
  }

  lemma SchedLocksElsewhere(s: State, s': State, c: nat)
    requires Core(s) && c < NCPU && s.cpus[c].cur == None && SchedStep(s, s', c)
    ensures forall l :: l in s.held && s.held[l] != c ==> l in s'.held && s'.held[l] == s.held[l]
    ensures forall l :: l in s'.held && s'.held[l] != c ==> l in s.held && s.held[l] == s'.held[l]
  {
    assert LockOk(s, c, PLock(s.cpus[c].spc.i));
  }

  lemma SchedLocks(s: State, s': State, c: nat)
    requires Core(s) && c < NCPU && s.cpus[c].cur == None && SchedStep(s, s', c)
    ensures LockInv(s')
  {
    forall c': nat | c' < NCPU && c' != c
      ensures s.cpus[c'].cur.Some? && s.cpus[c'].cur.value < NPROC ==>
            s'.procs[s.cpus[c'].cur.value].pc == s.procs[s.cpus[c'].cur.value].pc
    {
      assert CpuOk(s, c');
    }
    SchedLocksHere(s, s', c);
    SchedLocksElsewhere(s, s', c);
    LocksFollow(s, s', c);
  }

  /** The scheduler takes a RUNNABLE process, or lets go of one. */
  lemma SchedProcs(s: State, s': State, c: nat)
    requires Core(s) && c < NCPU && s.cpus[c].cur == None && SchedStep(s, s', c)
    requires s.cpus[c].spc.SchedCheck? || s.cpus[c].spc.SchedBack?
    ensures forall q: nat :: q < NPROC ==> ProcOk(s', q)
  {
    var i := s.cpus[c].spc.i;
    assert CpuOk(s, c);
    assert ProcOk(s, i);
    if s.cpus[c].spc.SchedCheck? && s.procs[i].state == RUNNABLE { LockedRests(s, c, i); }
    forall q: nat | q < NPROC ensures ProcOk(s', q) { assert ProcOk(s, q); }
  }

  lemma SchedCpus(s: State, s': State, c: nat)
    requires Core(s) && c < NCPU && s.cpus[c].cur == None && SchedStep(s, s', c)
    requires s.cpus[c].spc.SchedCheck? || s.cpus[c].spc.SchedBack?
    ensures forall c': nat :: c' < NCPU ==> CpuOk(s', c')
  {
    var i := s.cpus[c].spc.i;
    assert CpuOk(s, c);
    assert ProcOk(s, i);
    if s.cpus[c].spc.SchedCheck? && s.procs[i].state == RUNNABLE { LockedRests(s, c, i); }
    forall c': nat | c' < NCPU ensures CpuOk(s', c') { assert CpuOk(s, c'); }
  }

  lemma SchedOnly(s: State, s': State, c: nat)
    requires Core(s) && c < NCPU && s.cpus[c].cur == None && SchedStep(s, s', c)
    requires s.cpus[c].spc.SchedAcq? || s.cpus[c].spc.SchedRun? || s.cpus[c].spc.SchedRel?
    ensures forall c': nat :: c' < NCPU ==> CpuOk(s', c')
    ensures forall q: nat :: q < NPROC ==> ProcOk(s', q)
  {
    assert CpuOk(s, c);
    forall c': nat | c' < NCPU ensures CpuOk(s', c') { assert CpuOk(s, c'); }
    forall q: nat | q < NPROC ensures ProcOk(s', q) { assert ProcOk(s, q); }
  }

  lemma SchedCore(s: State, s': State, c: nat)
    requires Core(s) && c < NCPU && s.cpus[c].cur == None && SchedStep(s, s', c)
    ensures Core(s')
  {
    SchedLocks(s, s', c);
    if s.cpus[c].spc.SchedCheck? || s.cpus[c].spc.SchedBack? {
      SchedProcs(s, s', c);
      SchedCpus(s, s', c);
    } else {
      SchedOnly(s, s', c);
    }
  }
}
