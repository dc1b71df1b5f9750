/** The promises of the process protocol, for every state of every run. */
module ProcsTheorems {
  import opened Common
  import opened Procs
  import opened ProcsInv
  import opened ProcsMoves
  import opened ProcsCore
  import opened ProcsSleepInv
  import opened ProcsSleep
  import opened ProcsFamilyInv
  import opened ProcsFamily
  import opened ProcsRecordsInv
  import opened ProcsRecords
  import opened ProcsRunsInv
  import opened ProcsRuns
  import opened ProcsGuard
  import opened ProcsFree

  // ----- spinlocks -----

  /** No two CPUs execute inside critical sections of the same lock, and the lock
      word names the CPU that does. */
  lemma MutualExclusion(run: seq<State>, i: nat, c: nat, c': nat, l: Lock)
    requires IsRun(run) && i < |run| && c < NCPU && c' < NCPU
    ensures CpuHolds(run[i], c, l) && CpuHolds(run[i], c', l) ==> c == c'
    ensures CpuHolds(run[i], c, l) <==> l in run[i].held && run[i].held[l] == c
  {
    EveryRunKeepsInv(run, i);
    assert LockOk(run[i], c, l) && LockOk(run[i], c', l);
  }

  /** No step panics in acquire, release or sched: what is acquired is not held by
      this CPU, what is released is, and sched is called with p->lock held, no
      other lock held, and p not RUNNING. */
  lemma NoLockPanic(run: seq<State>, i: nat, c: nat, p: nat, m: Move)
    requires IsRun(run) && i < |run| && Runs(run[i], c, p) && May(run[i], p, m)
    ensures var s := run[i];
      match m.op
      case Hold => true
      case Take(l) => !(l in s.held && s.held[l] == c)
      case Give(l) => l in s.held && s.held[l] == c
      case Swtch => s.procs[p].state != RUNNING && (forall l: Lock :: l in s.held && s.held[l] == c <==> l == PLock(p))
  {
    var s := run[i];
    EveryRunKeepsInv(run, i);
    Here(s, c, p);
    LocksStep(s, p, m);
    if m.op.Take? || m.op.Give? { assert LockOk(s, c, m.op.l); }
    if m.op.Swtch? {
      SwitchState(s, p, m);
      forall l: Lock ensures l in s.held && s.held[l] == c <==> l == PLock(p) { assert LockOk(s, c, l); }
    }
  }

  lemma SwitchState(s: State, p: nat, m: Move)
    requires p < NPROC && Active(s.procs[p]) && May(s, p, m) && m.op.Swtch?
    ensures s.procs[p].state != RUNNING
  {}

  /** A process's state, channel, killed flag, exit status and pid change only while the CPU that changes them
      holds its p->lock, and its parent only under wait_lock. */
  lemma LockDiscipline(run: seq<State>, i: nat, c: nat, j: nat)
    requires IsRun(run) && i + 1 < |run| && Next(run[i], run[i + 1], c) && j < NPROC
    ensures var s, s' := run[i], run[i + 1];
      && (SameGuarded(s.procs[j], s'.procs[j]) || (PLock(j) in s.held && s.held[PLock(j)] == c))
      && (s'.procs[j].parent == s.procs[j].parent || (CLock(WaitLk) in s.held && s.held[CLock(WaitLk)] == c))
  {
    var s, s' := run[i], run[i + 1];
    EveryRunKeepsInv(run, i);
    assert LockOk(s, c, PLock(j)) && LockOk(s, c, CLock(WaitLk));
    match s.cpus[c].cur
    case None => assert CpuOk(s, c);
    case Some(p) =>
      var m :| ProcStep(s, s', c, p, m);
      MoveStep(s, c, p, m);
      MoveGuarded(s, c, p, m, j);
      MoveParent(s, c, p, m, j);
  }

  // ----- scheduling -----

  /** While p->lock is free, p is RUNNING exactly if one CPU's c->proc is p, and
      that CPU executes p; otherwise p is stopped where Resting says. */
  lemma HandOff(run: seq<State>, i: nat, p: nat)
    requires IsRun(run) && i < |run| && p < NPROC && PLock(p) !in run[i].held
    ensures var s := run[i];
      if s.procs[p].state == RUNNING
      then exists c: nat :: Runs(s, c, p) && forall c': nat :: c' < NCPU && c' != c ==> s.cpus[c'].proc != Some(p)
      else Resting(s.procs[p]) && forall c: nat :: c < NCPU ==> s.cpus[c].proc != Some(p) && s.cpus[c].cur != Some(p)
  {
    var s := run[i];
    EveryRunKeepsInv(run, i);
    assert ProcOk(s, p);
    if s.procs[p].on.Some? {
      var c := s.procs[p].on.value;
      assert CpuOk(s, c) && LockOk(s, c, PLock(p));
      assert Runs(s, c, p);
      forall c': nat | c' < NCPU && c' != c ensures s.cpus[c'].proc != Some(p) { assert CpuOk(s, c'); }
    } else {
      forall c: nat | c < NCPU ensures s.cpus[c].proc != Some(p) && s.cpus[c].cur != Some(p) { assert CpuOk(s, c); }
    }
  }

  /** How many entries a scheduler at entry i is before entry j. */
  function Turns(i: nat, j: nat): (k: nat)
    requires i < NPROC && j < NPROC
  {
    (j + NPROC - i) % NPROC
  }

  /** The scheduler takes the entries in turn: each time it moves on it is one closer to any entry j, it moves on
      only from an entry that it has locked and looked at, and it runs the process there if that is RUNNABLE. */
  lemma InTurn(run: seq<State>, i: nat, s': State, c: nat, j: nat)
    requires IsRun(run) && i < |run| && c < NCPU && run[i].cpus[c].cur == None && SchedStep(run[i], s', c) && j < NPROC
    ensures var u, u' := run[i].cpus[c].spc, s'.cpus[c].spc;
      && u.i < NPROC && u'.i < NPROC
      && (u'.i == u.i || (u.SchedRel? && Turns(u'.i, j) == (if u.i == j then NPROC else Turns(u.i, j)) - 1))
      && (u.SchedAcq? ==> u' == SchedCheck(u.i))
      && (u.SchedCheck? && run[i].procs[u.i].state == RUNNABLE ==>
            s'.procs[u.i].state == RUNNING && u' == SchedRun(u.i))
  {
    EveryRunKeepsInv(run, i);
    assert CpuOk(run[i], c);
  }

  /** freeproc only ever frees a process that no CPU runs or is about to run, and
      that never got to run or has exited. */
  lemma FreedAtRest(run: seq<State>, i: nat, c: nat, p: nat, m: Move, q: nat)
    requires IsRun(run) && i < |run| && Runs(run[i], c, p) && May(run[i], p, m) && Unblocked(run[i], m)
    requires m.other == Set(q, BLANK)
    ensures var s := run[i];
      && q != p && (s.procs[q].state == ZOMBIE || s.procs[q].state == USED)
      && forall c': nat :: c' < NCPU ==> s.cpus[c'].proc != Some(q) && s.cpus[c'].cur != Some(q)
  {
    var s := run[i];
    EveryRunKeepsInv(run, i);
    MoveStep(s, c, p, m);
    Touches(s, p, m);
    TouchesRest(s, c, p, m);
    assert ForkerOk(s, p) && ProcOk(s, q);
    FreedState(s, p, m, q);
    FoundAtRest(s, c, p, q);
    forall c': nat | c' < NCPU ensures s.cpus[c'].proc != Some(q) && s.cpus[c'].cur != Some(q) { assert CpuOk(s, c'); }
  }

  lemma FreedState(s: State, p: nat, m: Move, q: nat)
    requires p < NPROC && q < NPROC && m.other == Set(q, BLANK) && Touch(s, p, m, q) && ForkerOk(s, p)
    ensures s.procs[q].state == ZOMBIE || s.procs[q].state == USED
    ensures ProcLock(p, s.procs[p].pc) == Some(q)
  {}

  // ----- sleep and wakeup -----

  /** When a wakeup(chan) made under lk has gone through the table, no process
      that decided to sleep on chan under lk is still asleep. */
  lemma NoLostWakeup(run: seq<State>, i: nat, q: nat, p: nat, chan: Chan, lk: Lk, ret: Pc)
    requires IsRun(run) && i < |run| && q < NPROC && p < NPROC && p != q && RetLock(ret) == Some(lk)
    requires run[i].procs[q].pc.WakeAcq? && run[i].procs[q].pc.i >= NPROC
    requires run[i].procs[q].pc.chan == chan && run[i].procs[q].pc.ret == ret
    ensures !Waiting(run[i], p, chan, lk)
  {
    EveryRunKeepsInv(run, i);
    assert WakeOkAt(run[i], q, p);
  }

  /** p has called sleep(chan, lk) and has not been woken. */
  predicate InSleep(s: State, p: nat, chan: Chan, lk: Lk)
    requires p < NPROC
  {
    var pc := s.procs[p].pc;
    Waiting(s, p, chan, lk) || ((pc.SleepAcq? || pc.SleepRel?) && pc.chan == chan && pc.lk == lk)
  }

  /** The CPU that runs p holds the lock. */
  ghost predicate ProcHolds(s: State, p: nat, l: Lock) {
    exists c: nat :: Runs(s, c, p) && l in s.held && s.held[l] == c
  }

  lemma WaitsAsleep(s: State, p: nat, chan: Chan, lk: Lk)
    requires Core(s) && p < NPROC && Waiting(s, p, chan, lk)
    ensures PLock(p) in s.held || (s.procs[p].state == SLEEPING && s.procs[p].chan == Some(chan))
  {
    assert ProcOk(s, p);
    if s.procs[p].on.Some? {
      assert CpuOk(s, s.procs[p].on.value) && LockOk(s, s.procs[p].on.value, PLock(p));
    }
  }

  /** From the moment a process calls sleep(chan, lk) until it is woken it holds lk, or its
      own lock is held, or it is asleep with its channel recorded. */
  lemma AsleepOnChannel(run: seq<State>, i: nat, p: nat, chan: Chan, lk: Lk)
    requires IsRun(run) && i < |run| && p < NPROC && InSleep(run[i], p, chan, lk)
    ensures var s := run[i];
      || ProcHolds(s, p, CLock(lk)) || PLock(p) in s.held
      || (s.procs[p].state == SLEEPING && s.procs[p].chan == Some(chan))
  {
    var s := run[i];
    EveryRunKeepsInv(run, i);
    assert ProcOk(s, p);
    if Waiting(s, p, chan, lk) {
      WaitsAsleep(s, p, chan, lk);
    } else {
      var c := Executes(s, p);
      assert LockOk(s, c, CLock(lk));
      assert Runs(s, c, p);
    }
  }

  /** A condition lock that some process's code holds is not free. */
  lemma HeldLock(s: State, lk: Lk, q: nat)
    requires Core(s) && q < NPROC && CondLock(s.procs[q].pc) == Some(lk)
    ensures CLock(lk) in s.held
  {
    var c := Executes(s, q);
    assert LockOk(s, c, CLock(lk));
  }

  // ----- sleep locks -----

  /** A sleep lock has at most one holder, and lk->locked says whether it has one. */
  lemma OneSleepLockHolder(run: seq<State>, i: nat, p: nat, q: nat, k: nat)
    requires IsRun(run) && i < |run| && p < NPROC && q < NPROC
    ensures k in run[i].procs[p].sleepHeld && k in run[i].procs[q].sleepHeld ==> p == q
    ensures k in run[i].procs[p].sleepHeld <==> k in run[i].taken && run[i].taken[k] == p
  {
    EveryRunKeepsInv(run, i);
    assert HolderOk(run[i], p, k) && HolderOk(run[i], q, k);
  }

  /** Nobody sleeps on a free sleep lock once its spinlock is free. */
  lemma NoSleeperOnFreeLock(run: seq<State>, i: nat, p: nat, k: nat)
    requires IsRun(run) && i < |run| && p < NPROC && k !in run[i].taken && CLock(SleepLk(k)) !in run[i].held
    ensures !Waiting(run[i], p, LockChan(k), SleepLk(k))
  {
    var s := run[i];
    EveryRunKeepsInv(run, i);
    assert SleeperOk(s, p, k);
    if Waiting(s, p, LockChan(k), SleepLk(k)) {
      var r: nat :| r < NPROC && WillWake(s, r, p, LockChan(k), SleepLk(k));
      HeldLock(s, SleepLk(k), r);
    }
  }

  // ----- exit and wait -----

  /** A process blocked in kwait has a child, and, once wait_lock is free, none
      that has exited. */
  lemma NoExitMissed(run: seq<State>, i: nat, q: nat, j: nat)
    requires IsRun(run) && i < |run| && q < NPROC && j < NPROC && Waits(run[i], q)
    ensures HasKid(run[i], q)
    ensures CLock(WaitLk) !in run[i].held ==> !ZombieChild(run[i], q, j)
  {
    var s := run[i];
    EveryRunKeepsInv(run, i);
    assert KidOk(s, q) && ExitSeen(s, q, j);
    if CLock(WaitLk) !in s.held && ZombieChild(s, q, j) {
      var r: nat :| r < NPROC && WillWake(s, r, q, ProcChan(q), WaitLk);
      HeldLock(s, WaitLk, r);
    }
  }

  /** kwait says "no children" only when there are none. */
  lemma NoChildrenIsTrue(run: seq<State>, i: nat, q: nat, j: nat)
    requires IsRun(run) && i < |run| && q < NPROC && j < NPROC
    requires run[i].procs[q].pc == WaitScan(NPROC, false)
    ensures run[i].procs[j].parent != Some(q)
  {
    EveryRunKeepsInv(run, i);
    assert ScanOk(run[i], q, j);
  }

  /** kwait gives up only if the process is killed or has no children. It goes to sleep only if it is not killed
      and has a child, none of which has exited. */
  lemma WaitGivesUp(run: seq<State>, i: nat, c: nat, p: nat, m: Move, j: nat)
    requires IsRun(run) && i < |run| && Runs(run[i], c, p) && May(run[i], p, m) && j < NPROC
    requires run[i].procs[p].pc.WaitScan? || run[i].procs[p].pc.WaitKillRel?
    ensures var s := run[i];
      && (m.self.pc == WaitUnwait ==> s.procs[p].killed || s.procs[j].parent != Some(p))
      && (IsSleep(m.self.pc) ==> !s.procs[p].killed && HasKid(s, p) && !ZombieChild(s, p, j))
  {
    WaitNexts(run[i], p, m);
    WaitKnows(run, i, p, j);
  }

  lemma WaitNexts(s: State, p: nat, m: Move)
    requires p < NPROC && May(s, p, m) && (s.procs[p].pc.WaitScan? || s.procs[p].pc.WaitKillRel?)
    ensures m.self.pc == WaitUnwait ==>
      s.procs[p].pc == WaitKillRel(true) || (s.procs[p].pc.WaitScan? && !s.procs[p].pc.kids && s.procs[p].pc.i >= NPROC)
    ensures IsSleep(m.self.pc) ==> s.procs[p].pc == WaitKillRel(false)
  {}

  /** What kwait knows when it decides. */
  lemma WaitKnows(run: seq<State>, i: nat, p: nat, j: nat)
    requires IsRun(run) && i < |run| && p < NPROC && j < NPROC
    ensures var s, pc := run[i], run[i].procs[p].pc;
      && (pc.WaitScan? && !pc.kids && pc.i >= NPROC ==> s.procs[j].parent != Some(p))
      && (pc.WaitKillRel? ==> pc.dead == s.procs[p].killed && !ZombieChild(s, p, j))
      && (pc == WaitKillRel(false) ==> HasKid(s, p))
  {
    var s := run[i];
    EveryRunKeepsInv(run, i);
    EveryRunReads(run, i);
    assert Reads(s, p) && KidOk(s, p) && ScanOk(s, p, j);
  }

  /** When kkill(pid) returns from its search, the process it found has that pid, is killed and is not asleep; an
      entry that it passes over has another pid. */
  lemma KillTakesEffect(run: seq<State>, i: nat, p: nat, j: nat, pid: nat, found: bool)
    requires IsRun(run) && i < |run| && p < NPROC && run[i].procs[p].pc == KillRel(j, pid, found)
    ensures j < NPROC
    ensures var x := run[i].procs[j];
      if found then x.pid == pid && x.killed && x.state != SLEEPING && (pid != 0 ==> x.state != UNUSED)
      else x.pid != pid
  {
    EveryRunKeepsInv(run, i);
    EveryRunReads(run, i);
    if j < NPROC { FreeIsBlank(run, i, j); }
    assert ProcOk(run[i], p) && Reads(run[i], p);
  }

  /** Every process that can run or has exited, init aside, has a parent that is
      alive: orphans are handed to init before their parent becomes a zombie. */
  lemma NoOrphans(run: seq<State>, i: nat, j: nat)
    requires IsRun(run) && i < |run| && j < NPROC && j != INIT
    requires Live(run[i].procs[j].state) || run[i].procs[j].state == ZOMBIE
    ensures var s := run[i];
      && s.procs[j].parent.Some? && s.procs[j].parent.value < NPROC && s.procs[j].parent.value != j
      && Live(s.procs[s.procs[j].parent.value].state)
  {
    EveryRunKeepsInv(run, i);
    assert ParentOk(run[i], j);
  }

  /** kwait reaps its own child, once, with the status the child passed to kexit. */
  lemma ReapedOnce(run: seq<State>, i: nat, c: nat, p: nat, m: Move)
    requires IsRun(run) && i < |run| && Runs(run[i], c, p) && May(run[i], p, m) && m.note.Reaps?
    ensures var s := run[i];
      && m.note.pid !in s.reaped && m.note.pid in s.exited && s.exited[m.note.pid] == m.note.status
      && exists j: nat :: IsZombie(s, j, m.note.pid) && s.procs[j].parent == Some(p)
  {
    var s := run[i];
    EveryRunKeepsInv(run, i);
    Notes(s, p, m);
    var j := s.procs[p].pc.i;
    assert PidOk(s, j) && KidOk(s, p);
    assert IsZombie(s, j, m.note.pid);
  }

  /** No exit status is lost: it has been reported, unchanged, or a zombie has it. */
  lemma ExitStatusKept(run: seq<State>, i: nat, pid: nat)
    requires IsRun(run) && i < |run|
    ensures var s := run[i];
      && (pid in s.reaped ==> pid in s.exited && s.reaped[pid] == s.exited[pid])
      && (pid in s.exited && pid !in s.reaped ==>
            exists p: nat :: IsZombie(s, p, pid) && s.procs[p].xstate == s.exited[pid])
  {
    var s := run[i];
    EveryRunKeepsInv(run, i);
    assert ExitedOk(s, pid);
    if pid in s.exited && pid !in s.reaped {
      var p: nat :| IsZombie(s, p, pid);
      assert PidOk(s, p);
    }
  }

  /** An exit status, once given, stays as it is for the rest of the run. */
  lemma ExitStatusFinal(s: State, s': State, c: nat, pid: nat)
    requires Inv(s) && Next(s, s', c) && pid in s.exited
    ensures pid in s'.exited && s'.exited[pid] == s.exited[pid]
    ensures pid in s.reaped ==> pid in s'.reaped && s'.reaped[pid] == s.reaped[pid]
  {
    match s.cpus[c].cur
    case None => SchedEffect(s, s', c);
    case Some(p) =>
      var m :| ProcStep(s, s', c, p, m);
      MoveStep(s, c, p, m);
      Here(s, c, p);
      Notes(s, p, m);
      SelfKeeps(s, p, m);
      assert PidOk(s, p);
      if m.note.Reaps? { assert PidOk(s, m.other.i); }
  }

  /** Every process in the table has its own pid. */
  lemma PidsUnique(run: seq<State>, i: nat, p: nat, q: nat)
    requires IsRun(run) && i < |run| && p < NPROC && q < NPROC && p != q
    requires run[i].procs[p].state != UNUSED && run[i].procs[q].state != UNUSED
    ensures run[i].procs[p].pid != run[i].procs[q].pid
  {
    EveryRunKeepsInv(run, i);
    assert PidsDiffer(run[i], p, q);
  }

  /** q is in kfork, filling in entry j. */
  ghost predicate Forks(s: State, q: nat, j: nat) {
    q < NPROC && ForkTarget(Base(s.procs[q].pc)) == Some(j)
  }

  /** A USED entry belongs to exactly one kfork in progress. */
  lemma UsedHasForker(run: seq<State>, i: nat, j: nat)
    requires IsRun(run) && i < |run| && j < NPROC && run[i].procs[j].state == USED
    ensures exists q: nat :: Forks(run[i], q, j) && forall r: nat :: Forks(run[i], r, j) ==> r == q
  {
    EveryRunKeepsInv(run, i);
    assert ChildOk(run[i], j);
    var q := run[i].procs[j].forker.value;
    assert Forks(run[i], q, j);
    forall r: nat | Forks(run[i], r, j) ensures r == q {
      assert ForkerOk(run[i], r);
    }
  }
}
