/** Pids, exit statuses and sleep locks. */
module ProcsRecordsInv {
  import opened Common
  import opened Procs
  import opened ProcsInv
  import opened ProcsSleepInv

  // ----- pids and exit statuses -----

  ghost predicate PidOk(s: State, p: nat)
    requires p < NPROC
  {
    var x := s.procs[p];
    x.state != UNUSED ==>
      && 0 < x.pid < s.nextpid && x.pid !in s.reaped
      && (x.pid in s.exited <==> x.state == ZOMBIE)
      && (x.state == ZOMBIE ==> s.exited[x.pid] == x.xstate)
  }

  ghost predicate PidsDiffer(s: State, p: nat, q: nat)
    requires p < NPROC && q < NPROC
  {
    p != q && s.procs[p].state != UNUSED && s.procs[q].state != UNUSED ==> s.procs[p].pid != s.procs[q].pid
  }

  ghost predicate IsZombie(s: State, p: nat, pid: nat) {
    p < NPROC && s.procs[p].state == ZOMBIE && s.procs[p].pid == pid
  }

  /** An exit status is kept until kwait reports it. */
  ghost predicate ExitedOk(s: State, pid: nat) {
    && (pid in s.exited ==> pid < s.nextpid && (pid in s.reaped || exists p: nat :: IsZombie(s, p, pid)))
    && (pid in s.reaped ==> pid in s.exited && s.exited[pid] == s.reaped[pid])
  }

  ghost predicate PidInv(s: State) {
    && 0 < s.nextpid
    && (forall p: nat :: p < NPROC ==> PidOk(s, p))
    && (forall p: nat, q: nat :: p < NPROC && q < NPROC ==> PidsDiffer(s, p, q))
    && (forall pid: nat :: ExitedOk(s, pid))
  }

  // ----- sleep locks -----

  ghost predicate HolderOk(s: State, p: nat, k: nat)
    requires p < NPROC
  {
    k in s.procs[p].sleepHeld <==> k in s.taken && s.taken[k] == p
  }

  /** Past the point where a process must not hold sleep locks. */
  predicate Leaving(pc: Pc) {
    IsExit(pc) || (IsWake(pc) && (pc.ret.Reparent? || pc.ret.ExitLock?))
  }

  ghost predicate UseOk(s: State, p: nat)
    requires p < NPROC
  {
    var x, pc := s.procs[p], Base(s.procs[p].pc);
    && (pc.RelLock? || pc.RelClear? ==> pc.k in x.sleepHeld)
    && ((pc.SleepAcq? || pc.SleepRel?) && pc.lk.SleepLk? ==> pc.lk.k in s.taken)
    && (x.state == UNUSED || x.state == USED || x.state == ZOMBIE || Leaving(pc) ==> x.sleepHeld == {})
  }

  /** While p sleeps on a free sleep lock, the process that freed it is in wakeup,
      holds the lock's spinlock, and has yet to reach p. */
  ghost predicate SleeperOk(s: State, p: nat, k: nat)
    requires p < NPROC
  {
    Waiting(s, p, LockChan(k), SleepLk(k)) && k !in s.taken ==>
      exists r: nat :: r < NPROC && WillWake(s, r, p, LockChan(k), SleepLk(k))
  }

  ghost predicate SleepLockInv(s: State) {
    && (forall k :: k in s.taken ==> s.taken[k] < NPROC)
    && (forall p: nat, k: nat :: p < NPROC ==> HolderOk(s, p, k))
    && (forall p: nat :: p < NPROC ==> UseOk(s, p))
    && (forall p: nat, k: nat :: p < NPROC ==> SleeperOk(s, p, k))
  }
}

module ProcsRecords {
  import opened Common
  import opened Procs
  import opened ProcsInv
  import opened ProcsMoves
  import opened ProcsCore
  import opened ProcsSleepInv
  import opened ProcsSleep
  import opened ProcsFamilyInv
  import opened ProcsFamily
  import opened ProcsRecordsInv

  /** What each record is for. */
  ghost predicate Noted(s: State, p: nat, m: Move)
    requires p < NPROC
  {
    var pc := s.procs[p].pc;
    match m.note
    case Quiet => !pc.ExitSet? && !pc.RelClear? && (pc.ForkCheck? || pc.WaitCheck? ==> m.other == Alone)
    case Locks(k) => pc == AcqTest(k) && k !in s.taken && m.self.sleepHeld == s.procs[p].sleepHeld + {k}
    case Unlocks(k) => pc == RelClear(k) && m.self.sleepHeld == s.procs[p].sleepHeld - {k}
    case Allocates => pc.ForkCheck? && m.other.Set?
    case Exits(st) => pc.ExitSet? && m.self.state == ZOMBIE && m.self.xstate == st
    case Reaps(pid, st) =>
      && pc.WaitCheck? && pc.i < NPROC && m.other == Set(pc.i, BLANK)
      && s.procs[pc.i].state == ZOMBIE && s.procs[pc.i].pid == pid && s.procs[pc.i].xstate == st
  }

  lemma Notes(s: State, p: nat, m: Move)
    requires p < NPROC && May(s, p, m)
    ensures Noted(s, p, m)
  {}

  /** The exit status and the sleep locks of a process change only where they should. */
  predicate RecordsKept(x: Proc, m: Move) {
    && (m.self.xstate == x.xstate || x.pc.ExitSet?)
    && (m.self.sleepHeld == x.sleepHeld || m.note.Locks? || m.note.Unlocks?)
  }

  lemma CallRecords(s: State, p: nat, m: Move)
    requires p < NPROC && (ForkMove(s, p, m) || ExitMove(s, p, m) || WaitMove(s, p, m) || KillMove(s, p, m))
    ensures RecordsKept(s.procs[p], m)
  {}

  lemma SelfRecords(s: State, p: nat, m: Move)
    requires p < NPROC && May(s, p, m)
    ensures RecordsKept(s.procs[p], m)
  {
    if ForkMove(s, p, m) || ExitMove(s, p, m) || WaitMove(s, p, m) || KillMove(s, p, m) { CallRecords(s, p, m); }
  }

  // ----- pids -----

  lemma OwnPidKept(s: State, c: nat, p: nat, m: Move)
    requires Step(s, c, p, m) && PidInv(s)
    ensures PidOk(Perform(s, c, p, m), p)
  {
    Here(s, c, p);
    SelfKeeps(s, p, m);
    SelfState(s, p, m);
    SelfRecords(s, p, m);
    Notes(s, p, m);
    assert PidOk(s, p);
    if m.note.Reaps? { assert PidsDiffer(s, p, m.other.i); }
  }

  lemma ElsePidKept(s: State, c: nat, p: nat, m: Move, q: nat)
    requires Step(s, c, p, m) && PidInv(s) && q < NPROC && q != p
    ensures PidOk(Perform(s, c, p, m), q)
  {
    Here(s, c, p);
    ElseChange(s, c, p, m, q);
    SelfKeeps(s, p, m);
    Notes(s, p, m);
    assert PidOk(s, q) && PidsDiffer(s, p, q) && ExitedOk(s, s.nextpid) && ForkerOk(s, p);
    if m.note.Reaps? { assert PidsDiffer(s, q, m.other.i); }
  }

  lemma PidsStayApart(s: State, c: nat, p: nat, m: Move, q: nat, r: nat)
    requires Step(s, c, p, m) && PidInv(s) && q < NPROC && r < NPROC && q != r && r != p
    ensures PidsDiffer(Perform(s, c, p, m), q, r)
  {
    MoverState(s, c, p);
    SelfKeeps(s, p, m);
    if q != p { ElseChange(s, c, p, m, q); }
    ElseChange(s, c, p, m, r);
    assert PidsDiffer(s, q, r) && PidOk(s, q) && PidOk(s, r);
  }

  /** A zombie stays until it is reaped. */
  lemma ZombieStays(s: State, c: nat, p: nat, m: Move, q: nat, pid: nat)
    requires Step(s, c, p, m) && IsZombie(s, q, pid)
    ensures IsZombie(Perform(s, c, p, m), q, pid) || (m.note.Reaps? && m.note.pid == pid)
  {
    if q == p {
      SelfKeeps(s, p, m);
      SelfState(s, p, m);
      Here(s, c, p);
    } else {
      ElseChange(s, c, p, m, q);
      Notes(s, p, m);
      assert ForkerOk(s, p);
    }
  }

  lemma ExitedKept(s: State, c: nat, p: nat, m: Move, pid: nat)
    requires Step(s, c, p, m) && PidInv(s)
    ensures ExitedOk(Perform(s, c, p, m), pid)
  {
    var s' := Perform(s, c, p, m);
    MoverState(s, c, p);
    Notes(s, p, m);
    SelfKeeps(s, p, m);
    assert ExitedOk(s, pid) && PidOk(s, p);
    if m.note.Reaps? { assert PidOk(s, m.other.i); }
    if pid in s.exited && pid !in s.reaped {
      var q: nat :| IsZombie(s, q, pid);
      ZombieStays(s, c, p, m, q, pid);
    } else if pid in s'.exited && pid !in s.exited {
      assert IsZombie(s', p, pid);
    }
  }

  // ----- sleep locks -----

  lemma TakenKept(s: State, c: nat, p: nat, m: Move, q: nat, k: nat)
    requires Step(s, c, p, m) && SleepLockInv(s) && q < NPROC
    ensures HolderOk(Perform(s, c, p, m), q, k)
  {
    Here(s, c, p);
    Notes(s, p, m);
    assert HolderOk(s, q, k) && UseOk(s, p) && UseOk(s, q) && ForkerOk(s, p);
    if q == p {
      SelfRecords(s, p, m);
    } else {
      ElseChange(s, c, p, m, q);
      if m.note.Unlocks? { assert HolderOk(s, p, m.note.k); }
    }
  }

  lemma PrevIntoUse(p: nat, pc: Pc, next: Pc)
    requires PcOk(p, pc) && Prev(p, pc, next)
    ensures next.RelLock? || next.RelClear? ==> pc == RelLock(next.k) || pc == Idle
    ensures next.SleepAcq? && next.lk.SleepLk? ==> pc == AcqTest(next.lk.k)
    ensures next.SleepRel? ==> pc.SleepAcq? && pc.lk == next.lk
  {}

  lemma PrevIntoExit(p: nat, pc: Pc, next: Pc)
    requires PcOk(p, pc) && Prev(p, pc, next) && IsExit(next)
    ensures Leaving(pc) || pc == Idle
  {
    if next.Reparent? || next.ExitLock? { PrevIntoReparent(p, pc, next); }
  }

  lemma PrevIntoReparent(p: nat, pc: Pc, next: Pc)
    requires PcOk(p, pc) && Prev(p, pc, next) && (next.Reparent? || next.ExitLock?)
    ensures Leaving(pc) || pc == Idle
  {}

  lemma PrevIntoLeaving(p: nat, pc: Pc, next: Pc)
    requires PcOk(p, pc) && Prev(p, pc, next) && Leaving(next)
    ensures Leaving(pc) || pc == Idle
  {
    if IsExit(next) { PrevIntoExit(p, pc, next); }
  }

  lemma IdleUse(s: State, p: nat, m: Move)
    requires p < NPROC && May(s, p, m) && s.procs[p].pc == Idle
    ensures m.note == Quiet && m.self.sleepHeld == s.procs[p].sleepHeld
    ensures m.self.pc.RelLock? ==> m.self.pc.k in m.self.sleepHeld
    ensures m.self.pc.ExitAcq? ==> m.self.sleepHeld == {}
    ensures !m.self.pc.RelClear? && (Leaving(Base(m.self.pc)) ==> m.self.pc.ExitAcq?)
  {}

  lemma OwnReleaseKept(s: State, c: nat, p: nat, m: Move)
    requires Step(s, c, p, m) && SleepLockInv(s) && (Base(m.self.pc).RelLock? || Base(m.self.pc).RelClear?)
    ensures Base(m.self.pc).k in m.self.sleepHeld
  {
    Here(s, c, p);
    StepPrev(s, p, m);
    var pc, next := s.procs[p].pc, m.self.pc;
    if IsYield(pc) || IsYield(next) { PrevBase(p, pc, next); } else { PrevIntoUse(p, pc, next); }
    if s.procs[p].pc == Idle { IdleUse(s, p, m); }
    Notes(s, p, m);
    SelfRecords(s, p, m);
    assert UseOk(s, p);
  }

  lemma OwnLockSleepKept(s: State, c: nat, p: nat, m: Move)
    requires Step(s, c, p, m) && SleepLockInv(s) && (m.self.pc.SleepAcq? || m.self.pc.SleepRel?)
        && m.self.pc.lk.SleepLk?
    ensures m.self.pc.lk.k in Perform(s, c, p, m).taken
  {
    Here(s, c, p);
    StepPrev(s, p, m);
    var pc, next := s.procs[p].pc, m.self.pc;
    if IsYield(pc) || IsYield(next) { PrevBase(p, pc, next); } else { PrevIntoUse(p, pc, next); }
    Notes(s, p, m);
    assert UseOk(s, p);
  }

  lemma OwnLeavingKept(s: State, c: nat, p: nat, m: Move)
    requires Step(s, c, p, m) && SleepLockInv(s)
    requires m.self.state == UNUSED || m.self.state == USED || m.self.state == ZOMBIE || Leaving(Base(m.self.pc))
    ensures m.self.sleepHeld == {}
  {
    Here(s, c, p);
    StepPrev(s, p, m);
    var pc, next := s.procs[p].pc, m.self.pc;
    if IsYield(pc) || IsYield(next) { PrevBase(p, pc, next); } else if Leaving(next) { PrevIntoLeaving(p, pc, next); }
    if s.procs[p].pc == Idle { IdleUse(s, p, m); }
    Notes(s, p, m);
    SelfRecords(s, p, m);
    SelfState(s, p, m);
    assert UseOk(s, p);
  }

  lemma OwnUseKept(s: State, c: nat, p: nat, m: Move)
    requires Step(s, c, p, m) && SleepLockInv(s)
    ensures UseOk(Perform(s, c, p, m), p)
  {
    var next := Base(m.self.pc);
    if next.RelLock? || next.RelClear? { OwnReleaseKept(s, c, p, m); }
    if m.self.state == UNUSED || m.self.state == USED || m.self.state == ZOMBIE || Leaving(next) {
      OwnLeavingKept(s, c, p, m);
    }
    if (next.SleepAcq? || next.SleepRel?) && next.lk.SleepLk? {
      PcStepHere(s, c, p, m);
      OwnLockSleepKept(s, c, p, m);
    }
  }

  lemma PcStepHere(s: State, c: nat, p: nat, m: Move)
    requires Moves(s, c, p, m)
    ensures PcWf(p, m.self.pc)
  {
    Here(s, c, p);
    PcStep(s, p, m);
  }

  /** While q holds a sleep lock's spinlock, nobody else frees the sleep lock. */
  lemma ElseTaken(s: State, c: nat, p: nat, m: Move, q: nat, k: nat)
    requires Step(s, c, p, m) && q < NPROC && q != p && CondLock(s.procs[q].pc) == Some(SleepLk(k)) && k in s.taken
    ensures k in Perform(s, c, p, m).taken
  {
    Notes(s, p, m);
    if m.note == Unlocks(k) { CondExclusive(s, p, q); }
  }

  lemma ElseLeavingKept(s: State, c: nat, p: nat, m: Move, q: nat)
    requires Step(s, c, p, m) && SleepLockInv(s) && q < NPROC && q != p
    ensures var x, y := s.procs[q], Perform(s, c, p, m).procs[q];
      y.sleepHeld == x.sleepHeld && (y.state == UNUSED || y.state == USED || y.state == ZOMBIE ==> y.sleepHeld == {})
  {
    ElseChange(s, c, p, m, q);
    assert UseOk(s, q) && ForkerOk(s, p);
  }

  lemma DozesItself(s: State, q: nat)
    requires Core(s) && q < NPROC && (Base(s.procs[q].pc).SleepAcq? || Base(s.procs[q].pc).SleepRel?)
    ensures Base(s.procs[q].pc) == s.procs[q].pc
  {
    assert ProcOk(s, q);
  }

  lemma ElseUseKept(s: State, c: nat, p: nat, m: Move, q: nat)
    requires Step(s, c, p, m) && SleepLockInv(s) && q < NPROC && q != p
    ensures UseOk(Perform(s, c, p, m), q)
  {
    ElseBusy(s, c, p, m, q);
    ElseLeavingKept(s, c, p, m, q);
    assert UseOk(s, q);
    var pc := Base(s.procs[q].pc);
    if pc.SleepAcq? || pc.SleepRel? {
      DozesItself(s, q);
      if pc.lk.SleepLk? { ElseTaken(s, c, p, m, q, pc.lk.k); }
    }
  }

  lemma UnlockWakes(s: State, c: nat, p: nat, m: Move, q: nat, k: nat)
    requires Step(s, c, p, m) && SleepLockInv(s) && q < NPROC && k in s.taken && k !in Perform(s, c, p, m).taken
    requires Waiting(s, q, LockChan(k), SleepLk(k)) || (q == p && Dozing(s, p, LockChan(k), SleepLk(k)))
    ensures WillWake(Perform(s, c, p, m), p, q, LockChan(k), SleepLk(k))
  {
    Notes(s, p, m);
    assert UseOk(s, q) && SleeperOk(s, q, k);
    assert m.note == Unlocks(k);
  }

  lemma SleeperKept(s: State, c: nat, p: nat, m: Move, q: nat, k: nat)
    requires Step(s, c, p, m) && SleepLockInv(s) && q < NPROC
    ensures SleeperOk(Perform(s, c, p, m), q, k)
  {
    var s' := Perform(s, c, p, m);
    if Waiting(s', q, LockChan(k), SleepLk(k)) && k !in s'.taken {
      WaitingFrom(s, c, p, m, q, LockChan(k), SleepLk(k));
      Notes(s, p, m);
      assert UseOk(s, q) && SleeperOk(s, q, k);
      if k in s.taken {
        UnlockWakes(s, c, p, m, q, k);
      } else {
        var r: nat :| r < NPROC && WillWake(s, r, q, LockChan(k), SleepLk(k));
        WakerStays(s, c, p, m, r, q, LockChan(k), SleepLk(k));
      }
    }
  }
}
