/** What holds in every state of every run of the process protocol. */
module ProcsRunsInv {
  import opened Common
  import opened Procs
  import opened ProcsInv
  import opened ProcsSleepInv
  import opened ProcsFamilyInv
  import opened ProcsRecordsInv

  ghost predicate Inv(s: State) {
    && Core(s) && WakeInv(s) && ForkInv(s) && FamilyInv(s) && WaitInv(s) && PidInv(s) && SleepLockInv(s)
  }

  /** A scheduler step starts a process or lets go of one, and changes no record. */
  ghost predicate Rescheduled(s: State, s': State) {
    && (forall q: nat :: q < NPROC ==> Redispatched(s.procs[q], s'.procs[q]))
    && s'.taken == s.taken && s'.nextpid == s.nextpid && s'.exited == s.exited && s'.reaped == s.reaped
  }

  predicate Redispatched(x: Proc, y: Proc) {
    && y == x.(state := y.state, on := y.on)
    && (y.state == x.state || (x.state == RUNNABLE && y.state == RUNNING))
  }

  ghost predicate Steps(s: State, s': State) {
    exists c: nat :: Next(s, s', c)
  }

  ghost predicate StepAt(run: seq<State>, i: nat)
    requires i + 1 < |run|
  {
    Steps(run[i], run[i + 1])
  }

  ghost predicate IsRun(run: seq<State>) {
    && |run| > 0 && run[0] == Boot()
    && forall i: nat :: i + 1 < |run| ==> StepAt(run, i)
  }
}

module ProcsRuns {
  import opened Common
  import opened Procs
  import opened ProcsInv
  import opened ProcsCore
  import opened ProcsSleepInv
  import opened ProcsSleep
  import opened ProcsFamilyInv
  import opened ProcsFamily
  import opened ProcsWait
  import opened ProcsRecordsInv
  import opened ProcsRecords
  import opened ProcsRunsInv

  // ----- process steps -----

  lemma MoveStep(s: State, c: nat, p: nat, m: Move)
    requires Inv(s) && Runs(s, c, p) && May(s, p, m) && Unblocked(s, m)
    ensures Step(s, c, p, m)
  {
    assert ForkerOk(s, p) && ParentOk(s, p);
  }

  lemma ForkKept(s: State, c: nat, p: nat, m: Move)
    requires Step(s, c, p, m)
    ensures ForkInv(Perform(s, c, p, m))
  {
    var s' := Perform(s, c, p, m);
    forall q: nat | q < NPROC ensures ForkerOk(s', q) { ForkerKept(s, c, p, m, q); }
    forall i: nat | i < NPROC ensures ChildOk(s', i) {
      if i == p { OwnChildKept(s, c, p, m); }
      else if m.other.Set? && m.other.i == i { TouchedChildKept(s, c, p, m, i); }
      else { UntouchedChildKept(s, c, p, m, i); }
    }
  }

  lemma FamilyKept(s: State, c: nat, p: nat, m: Move)
    requires Step(s, c, p, m)
    ensures FamilyInv(Perform(s, c, p, m))
  {
    var s' := Perform(s, c, p, m);
    forall i: nat | i < NPROC ensures ParentOk(s', i) {
      if i == p { OwnParentKept(s, c, p, m); }
      else if m.other.Set? && m.other.i == i { TouchedParentKept(s, c, p, m, i); }
      else { UntouchedParentKept(s, c, p, m, i); }
    }
    forall q: nat, j: nat | q < NPROC && j < NPROC ensures ClearedOk(s', q, j) {
      if q == p { OwnClearedKept(s, c, p, m, j); } else { ElseClearedKept(s, c, p, m, q, j); }
    }
    forall j: nat | j < NPROC ensures ExitWakeOk(s', j) {
      if j == p { OwnExitWakeKept(s, c, p, m); } else { ElseExitWakeKept(s, c, p, m, j); }
    }
  }

  lemma WaitKept(s: State, c: nat, p: nat, m: Move)
    requires Step(s, c, p, m) && WaitInv(s)
    ensures WaitInv(Perform(s, c, p, m))
  {
    var s' := Perform(s, c, p, m);
    forall q: nat, j: nat | q < NPROC && j < NPROC ensures ScanOk(s', q, j) {
      if q == p { OwnScanKept(s, c, p, m, j); } else { ElseScanKept(s, c, p, m, q, j); }
    }
    forall q: nat | q < NPROC ensures KidOk(s', q) {
      if q == p { OwnKidKept(s, c, p, m); } else { ElseKidKept(s, c, p, m, q); }
    }
    forall q: nat, j: nat | q < NPROC && j < NPROC ensures ExitSeen(s', q, j) { ExitSeenKept(s, c, p, m, q, j); }
  }

  lemma PidKept(s: State, c: nat, p: nat, m: Move)
    requires Step(s, c, p, m) && PidInv(s)
    ensures PidInv(Perform(s, c, p, m))
  {
    var s' := Perform(s, c, p, m);
    forall q: nat | q < NPROC ensures PidOk(s', q) {
      if q == p { OwnPidKept(s, c, p, m); } else { ElsePidKept(s, c, p, m, q); }
    }
    forall q: nat, r: nat | q < NPROC && r < NPROC ensures PidsDiffer(s', q, r) {
      if q != r {
        if r != p { PidsStayApart(s, c, p, m, q, r); } else { PidsStayApart(s, c, p, m, r, q); }
      }
    }
    forall pid: nat ensures ExitedOk(s', pid) { ExitedKept(s, c, p, m, pid); }
  }

  lemma SleepLocksKept(s: State, c: nat, p: nat, m: Move)
    requires Step(s, c, p, m) && SleepLockInv(s)
    ensures SleepLockInv(Perform(s, c, p, m))
  {
    var s' := Perform(s, c, p, m);
    Notes(s, p, m);
    forall q: nat, k: nat | q < NPROC ensures HolderOk(s', q, k) { TakenKept(s, c, p, m, q, k); }
    forall q: nat | q < NPROC ensures UseOk(s', q) {
      if q == p { OwnUseKept(s, c, p, m); } else { ElseUseKept(s, c, p, m, q); }
    }
    forall q: nat, k: nat | q < NPROC ensures SleeperOk(s', q, k) { SleeperKept(s, c, p, m, q, k); }
  }

  lemma MoveKeepsInv(s: State, c: nat, p: nat, m: Move)
    requires Inv(s) && Runs(s, c, p) && May(s, p, m) && Unblocked(s, m)
    ensures Inv(Perform(s, c, p, m))
  {
    MoveStep(s, c, p, m);
    MoveCore(s, c, p, m);
    WakeKept(s, c, p, m);
    ForkKept(s, c, p, m);
    FamilyKept(s, c, p, m);
    WaitKept(s, c, p, m);
    PidKept(s, c, p, m);
    SleepLocksKept(s, c, p, m);
  }

  // ----- scheduler steps -----

  lemma SchedEffect(s: State, s': State, c: nat)
    requires c < NCPU && SchedStep(s, s', c)
    ensures Rescheduled(s, s')
  {}

  lemma RescheduledWaits(s: State, s': State, q: nat, chan: Chan, lk: Lk)
    requires Rescheduled(s, s') && q < NPROC
    ensures Waiting(s', q, chan, lk) == Waiting(s, q, chan, lk)
  {
    assert Redispatched(s.procs[q], s'.procs[q]);
  }

  lemma RescheduledWake(s: State, s': State)
    requires Rescheduled(s, s') && WakeInv(s)
    ensures WakeInv(s')
  {
    forall q: nat, p: nat | q < NPROC && p < NPROC && q != p ensures WakeOkAt(s', q, p) {
      assert WakeOkAt(s, q, p) && Redispatched(s.procs[q], s'.procs[q]);
      var pc := s.procs[q].pc;
      if IsWake(pc) && RetLock(pc.ret).Some? { RescheduledWaits(s, s', p, pc.chan, RetLock(pc.ret).value); }
    }
  }

  lemma RescheduledFork(s: State, s': State)
    requires Rescheduled(s, s') && ForkInv(s)
    ensures ForkInv(s')
  {
    forall q: nat | q < NPROC ensures ForkerOk(s', q) {
      assert ForkerOk(s, q) && Redispatched(s.procs[q], s'.procs[q]);
      var t := ForkTarget(Base(s.procs[q].pc));
      if t.Some? { assert Redispatched(s.procs[t.value], s'.procs[t.value]); }
    }
    forall i: nat | i < NPROC ensures ChildOk(s', i) {
      assert ChildOk(s, i) && Redispatched(s.procs[i], s'.procs[i]);
      if s.procs[i].forker.Some? {
        assert Redispatched(s.procs[s.procs[i].forker.value], s'.procs[s.procs[i].forker.value]);
      }
    }
  }

  lemma RescheduledFamily(s: State, s': State)
    requires Rescheduled(s, s') && FamilyInv(s)
    ensures FamilyInv(s')
  {
    forall i: nat | i < NPROC ensures ParentOk(s', i) && ExitWakeOk(s', i) {
      assert ParentOk(s, i) && ExitWakeOk(s, i) && Redispatched(s.procs[i], s'.procs[i]);
      if s.procs[i].parent.Some? {
        var q := s.procs[i].parent.value;
        assert Redispatched(s.procs[q], s'.procs[q]);
        RescheduledWaits(s, s', q, ProcChan(q), WaitLk);
      }
    }
    forall q: nat, j: nat | q < NPROC && j < NPROC ensures ClearedOk(s', q, j) {
      assert ClearedOk(s, q, j) && Redispatched(s.procs[q], s'.procs[q]) && Redispatched(s.procs[j], s'.procs[j]);
    }
  }

  lemma RescheduledWaker(s: State, s': State, r: nat, q: nat, chan: Chan, lk: Lk)
    requires Rescheduled(s, s') && r < NPROC && WillWake(s, r, q, chan, lk)
    ensures WillWake(s', r, q, chan, lk)
  {
    assert Redispatched(s.procs[r], s'.procs[r]);
  }

  lemma RescheduledWait(s: State, s': State)
    requires Rescheduled(s, s') && WaitInv(s)
    ensures WaitInv(s')
  {
    forall q: nat, j: nat | q < NPROC && j < NPROC ensures ScanOk(s', q, j) && ExitSeen(s', q, j) {
      assert ScanOk(s, q, j) && ExitSeen(s, q, j);
      assert Redispatched(s.procs[q], s'.procs[q]) && Redispatched(s.procs[j], s'.procs[j]);
      RescheduledWaits(s, s', q, ProcChan(q), WaitLk);
      if Waits(s, q) && ZombieChild(s, q, j) {
        var r: nat :| r < NPROC && WillWake(s, r, q, ProcChan(q), WaitLk);
        RescheduledWaker(s, s', r, q, ProcChan(q), WaitLk);
      }
    }
    forall q: nat | q < NPROC ensures KidOk(s', q) {
      var pc := s.procs[q].pc;
      assert KidOk(s, q) && Redispatched(s.procs[q], s'.procs[q]);
      if AtKid(pc) { assert Redispatched(s.procs[pc.i], s'.procs[pc.i]); }
      if SawKid(Base(pc)) {
        var j: nat :| j < NPROC && s.procs[j].parent == Some(q);
        assert Redispatched(s.procs[j], s'.procs[j]);
      }
    }
  }

  lemma RescheduledPid(s: State, s': State)
    requires Rescheduled(s, s') && PidInv(s)
    ensures PidInv(s')
  {
    forall p: nat | p < NPROC ensures PidOk(s', p) { assert PidOk(s, p) && Redispatched(s.procs[p], s'.procs[p]); }
    forall p: nat, q: nat | p < NPROC && q < NPROC ensures PidsDiffer(s', p, q) {
      assert PidsDiffer(s, p, q) && Redispatched(s.procs[p], s'.procs[p]) && Redispatched(s.procs[q], s'.procs[q]);
    }
    forall pid: nat ensures ExitedOk(s', pid) {
      assert ExitedOk(s, pid);
      if pid in s.exited && pid !in s.reaped {
        var p: nat :| IsZombie(s, p, pid);
        assert Redispatched(s.procs[p], s'.procs[p]);
        assert IsZombie(s', p, pid);
      }
    }
  }

  lemma RescheduledSleepLocks(s: State, s': State)
    requires Rescheduled(s, s') && SleepLockInv(s)
    ensures SleepLockInv(s')
  {
    forall p: nat, k: nat | p < NPROC ensures HolderOk(s', p, k) && SleeperOk(s', p, k) {
      assert HolderOk(s, p, k) && SleeperOk(s, p, k) && Redispatched(s.procs[p], s'.procs[p]);
      RescheduledWaits(s, s', p, LockChan(k), SleepLk(k));
      if Waiting(s, p, LockChan(k), SleepLk(k)) && k !in s.taken {
        var r: nat :| r < NPROC && WillWake(s, r, p, LockChan(k), SleepLk(k));
        RescheduledWaker(s, s', r, p, LockChan(k), SleepLk(k));
      }
    }
    forall p: nat | p < NPROC ensures UseOk(s', p) { assert UseOk(s, p) && Redispatched(s.procs[p], s'.procs[p]); }
  }

  lemma SchedKeepsInv(s: State, s': State, c: nat)
    requires Inv(s) && c < NCPU && s.cpus[c].cur == None && SchedStep(s, s', c)
    ensures Inv(s')
  {
    SchedCore(s, s', c);
    SchedEffect(s, s', c);
    RescheduledWake(s, s');
    RescheduledFork(s, s');
    RescheduledFamily(s, s');
    RescheduledWait(s, s');
    RescheduledPid(s, s');
    RescheduledSleepLocks(s, s');
  }

  // ----- runs -----

  lemma BootCore()
    ensures Core(Boot())
  {}

  lemma BootAt(s: State, q: nat)
    requires s == Boot() && q < NPROC
    ensures s.procs[q].pc == Idle || s.procs[q].pc == YieldRel(Idle)
    ensures s.procs[q].parent == None && s.procs[q].forker == None && s.procs[q].chan == None
    ensures s.procs[q].sleepHeld == {}
    ensures s.procs[q].state == if q == INIT then RUNNABLE else UNUSED
  {}

  lemma BootFamily(s: State)
    requires s == Boot()
    ensures WakeInv(s) && ForkInv(s) && FamilyInv(s) && WaitInv(s)
  {
    forall q: nat, j: nat | q < NPROC && j < NPROC && q != j ensures WakeOkAt(s, q, j) { BootAt(s, q); }
    forall q: nat | q < NPROC ensures ForkerOk(s, q) && ChildOk(s, q) { BootAt(s, q); }
    forall q: nat | q < NPROC ensures ParentOk(s, q) && ExitWakeOk(s, q) && KidOk(s, q) { BootAt(s, q); }
    forall q: nat, j: nat | q < NPROC && j < NPROC ensures ClearedOk(s, q, j) && ScanOk(s, q, j) && ExitSeen(s, q, j) {
      BootAt(s, q);
    }
  }

  lemma BootRecords(s: State)
    requires s == Boot()
    ensures PidInv(s) && SleepLockInv(s)
  {
    forall q: nat, k: nat | q < NPROC ensures HolderOk(s, q, k) && SleeperOk(s, q, k) { BootAt(s, q); }
    forall q: nat | q < NPROC ensures PidOk(s, q) && UseOk(s, q) { BootAt(s, q); }
    forall p: nat, q: nat | p < NPROC && q < NPROC ensures PidsDiffer(s, p, q) { BootAt(s, p); BootAt(s, q); }
  }

  lemma BootInv()
    ensures Inv(Boot())
  {
    BootCore();
    BootFamily(Boot());
    BootRecords(Boot());
  }

  lemma NextKeepsInv(s: State, s': State, c: nat)
    requires Inv(s) && Next(s, s', c)
    ensures Inv(s')
  {
    match s.cpus[c].cur
    case None => SchedKeepsInv(s, s', c);
    case Some(p) =>
      var m :| ProcStep(s, s', c, p, m);
      MoveKeepsInv(s, c, p, m);
  }

  lemma {:induction false} EveryRunKeepsInv(run: seq<State>, i: nat)
    requires IsRun(run) && i < |run|
    ensures Inv(run[i])
  {
    if i == 0 {
      BootInv();
    } else {
      EveryRunKeepsInv(run, i - 1);
      assert StepAt(run, i - 1);
      var c: nat :| Next(run[i - 1], run[i], c);
      NextKeepsInv(run[i - 1], run[i], c);
    }
  }
}
