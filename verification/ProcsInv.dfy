/** Lock ownership and the scheduler hand-off: at every point of every run each
    spinlock is held by exactly the CPU whose thread is between its acquire and
    its release, and p->state, c->proc and the point where p stopped agree. */
module ProcsInv {
  import opened Common
  import opened Procs

  // ----- where a process can be -----

  predicate SleepArgs(p: nat, chan: Chan, lk: Lk, ret: Pc) {
    match lk
    case WaitLk => chan == ProcChan(p) && ret == WaitScan(0, false)
    case SleepLk(k) => chan == LockChan(k) && ret == AcqTest(k)
    case OtherLk(j) => chan.OtherChan? && ret == Crit(j)
  }

  predicate WakeArgs(p: nat, ret: Pc) {
    match ret
    case RelUnlock(_) => true
    case Crit(_) => true
    case Reparent(_, _) => p != INIT
    case ExitLock(_) => p != INIT
    case _ => false
  }

  predicate IsSleep(pc: Pc) {
    || pc.SleepAcq? || pc.SleepRel? || pc.SleepSet? || pc.SleepSwtch? || pc.SleepTidy?
    || pc.SleepUnlock? || pc.SleepReacq?
  }

  predicate IsWake(pc: Pc) {
    pc.WakeAcq? || pc.WakeSet? || pc.WakeRel?
  }

  predicate IsExit(pc: Pc) {
    || pc.ExitAcq? || pc.Reparent? || pc.ExitLock? || pc.ExitSet? || pc.ExitUnwait? || pc.ExitSwtch? || pc.Dead?
  }

  /** At table entry i, which is some other process. */
  predicate AtOther(pc: Pc) {
    || pc.WakeSet? || pc.WakeRel?
    || pc.ForkInit? || pc.ForkFail? || pc.ForkRel? || pc.ForkWait? || pc.ForkParent? || pc.ForkUnwait?
    || pc.ForkLock? || pc.ForkReady? || pc.ForkDone?
    || pc.WaitLock? || pc.WaitCheck? || pc.WaitNext? || pc.WaitFreed?
  }

  /** At table entry i, which may be the process itself. */
  predicate AtAny(pc: Pc) {
    pc.ForkCheck? || pc.ForkSkip? || pc.KillSet? || pc.KillRel?
  }

  /** Program counters that the code can reach, yields aside. */
  predicate PcOk(p: nat, pc: Pc) {
    && !IsYield(pc)
    && (IsSleep(pc) ==> SleepArgs(p, pc.chan, pc.lk, pc.ret))
    && (IsWake(pc) ==> WakeArgs(p, pc.ret))
    && (IsExit(pc) ==> p != INIT)
    && (AtOther(pc) ==> pc.i < NPROC && pc.i != p)
    && (AtAny(pc) ==> pc.i < NPROC)
  }

  predicate IsYield(pc: Pc) {
    pc.YieldAcq? || pc.YieldSet? || pc.YieldSwtch? || pc.YieldRel?
  }

  /** What the process was doing when it yielded, if it is yielding. */
  function Base(pc: Pc): (r: Pc) {
    if IsYield(pc) then pc.ret else pc
  }

  predicate PcWf(p: nat, pc: Pc) {
    PcOk(p, Base(pc)) && (IsYield(pc) ==> Preemptible(pc.ret))
  }

  // ----- the invariant -----

  /** A lock is held exactly by the CPU whose thread is inside its critical section. */
  ghost predicate LockInv(s: State) {
    && (forall l :: l in s.held ==> s.held[l] < NCPU)
    && (forall c: nat, l: Lock :: c < NCPU ==> LockOk(s, c, l))
  }

  ghost predicate LockOk(s: State, c: nat, l: Lock)
    requires c < NCPU
  {
    l in s.held && s.held[l] == c <==> CpuHolds(s, c, l)
  }

  ghost predicate CpuOk(s: State, c: nat)
    requires c < NCPU
  {
    var u := s.cpus[c];
    && u.spc.i < NPROC
    && (u.proc.Some? ==> u.proc.value < NPROC && s.procs[u.proc.value].on == Some(c))
    && (u.proc == if u.spc.SchedRun? || u.spc.SchedBack? then Some(u.spc.i) else None)
    && (u.cur.Some? ==> u.spc.SchedBack? && u.cur == Some(u.spc.i))
  }

  /** A process that no CPU points at, or that its CPU is done with. */
  predicate Resting(x: Proc) {
    match x.state
    case UNUSED => x.pc == Idle
    case USED => x.pc == YieldRel(Idle)
    case SLEEPING => x.pc.SleepTidy? && x.chan == Some(x.pc.chan)
    case RUNNABLE => x.pc.YieldRel? || x.pc.SleepTidy?
    case RUNNING => false
    case ZOMBIE => x.pc.Dead?
  }

  /** A process whose thread some CPU executes. */
  predicate Active(x: Proc) {
    && !x.pc.Dead?
    && (x.pc.SleepSwtch? ==> x.chan == Some(x.pc.chan))
    && x.state ==
       if x.pc.YieldSwtch? then RUNNABLE
       else if x.pc.SleepSwtch? then SLEEPING
       else if x.pc.ExitUnwait? || x.pc.ExitSwtch? then ZOMBIE
       else RUNNING
  }

  ghost predicate ProcOk(s: State, p: nat)
    requires p < NPROC
  {
    var x := s.procs[p];
    && PcWf(p, x.pc)
    && match x.on
       case None => Resting(x)
       case Some(c) =>
         && c < NCPU && s.cpus[c].proc == Some(p)
         && if s.cpus[c].cur == Some(p) then Active(x)
            else if s.cpus[c].spc.SchedRun? then x.state == RUNNING && (x.pc.YieldRel? || x.pc.SleepTidy?)
            else Resting(x) && x.state != UNUSED && x.state != USED
  }

  ghost predicate Core(s: State) {
    && LockInv(s)
    && (forall c: nat :: c < NCPU ==> CpuOk(s, c))
    && (forall p: nat :: p < NPROC ==> ProcOk(s, p))
  }

  /** The thread that CPU c executes is process p. */
  ghost predicate Runs(s: State, c: nat, p: nat) {
    c < NCPU && p < NPROC && s.cpus[c].cur == Some(p)
  }

  /** No other CPU's thread moves. */
  ghost predicate OthersStay(s: State, s': State, c: nat) {
    forall c': nat :: c' < NCPU && c' != c ==>
      && s'.cpus[c'] == s.cpus[c']
      && (s.cpus[c'].cur.Some? && s.cpus[c'].cur.value < NPROC ==>
            s'.procs[s.cpus[c'].cur.value].pc == s.procs[s.cpus[c'].cur.value].pc)
  }

  // ----- moves that keep it -----

  /** The locks held at pc and at next differ by op. */
  predicate LockStep(p: nat, pc: Pc, next: Pc, op: LockOp) {
    match op
    case Hold => CondLock(next) == CondLock(pc) && ProcLock(p, next) == ProcLock(p, pc)
    case Take(PLock(i)) => CondLock(next) == CondLock(pc) && ProcLock(p, pc) == None && ProcLock(p, next) == Some(i)
    case Take(CLock(lk)) => CondLock(pc) == None && CondLock(next) == Some(lk) && ProcLock(p, next) == ProcLock(p, pc)
    case Give(PLock(i)) => CondLock(next) == CondLock(pc) && ProcLock(p, pc) == Some(i) && ProcLock(p, next) == None
    case Give(CLock(lk)) => CondLock(pc) == Some(lk) && CondLock(next) == None && ProcLock(p, next) == ProcLock(p, pc)
    case Swtch => CondLock(pc) == None && ProcLock(p, pc) == Some(p)
  }

  /** What one process may do to another's entry: change its parent or its killed
      flag, or anything that leaves it properly at rest. */
  predicate TouchOk(i: nat, x: Proc, y: Proc) {
    || y == x.(parent := y.parent, killed := y.killed)
    || (x.on == y.on == None && PcWf(i, y.pc) && Resting(y))
  }

  predicate SelfOk(x: Proc, m: Move) {
    && m.self.on == x.on
    && (if m.op.Swtch? then Resting(m.self) && m.self.state != UNUSED && m.self.state != USED else Active(m.self))
  }

  ghost predicate MoveOk(s: State, p: nat, m: Move)
    requires p < NPROC && Unblocked(s, m)
  {
    && SelfOk(s.procs[p], m) && PcWf(p, m.self.pc) && LockStep(p, s.procs[p].pc, m.self.pc, m.op)
    && (m.other.Set? ==> m.other.i != p && TouchOk(m.other.i, s.procs[m.other.i], m.other.x))
  }

  /** What the code that process p executes does to entry i. */
  ghost predicate Touch(s: State, p: nat, m: Move, i: nat)
    requires p < NPROC && i < NPROC && m.other.Set? && m.other.i == i
  {
    var pc, x, y := s.procs[p].pc, s.procs[i], m.other.x;
    || (pc.WakeSet? && pc.i == i && x.chan == Some(pc.chan) && y == Woken(x))
    || (pc.KillSet? && pc.i == i && i != p && y == Woken(x.(killed := true)))
    || (pc == ForkCheck(i) && x.state == UNUSED
        && y == x.(state := USED, pid := s.nextpid, pc := YieldRel(Idle), forker := Some(p)))
    || (pc == ForkInit(i) && y == BLANK)
    || (pc == ForkParent(i) && y == x.(parent := Some(p)))
    || (pc == ForkReady(i) && y == x.(state := RUNNABLE, forker := None))
    || (pc.Reparent? && pc.i == i && x.parent == Some(p) && y == x.(parent := Some(INIT)))
    || (pc == WaitCheck(i) && x.state == ZOMBIE && y == BLANK)
  }

  /** What the other invariants say about p that the core invariant needs. */
  ghost predicate Prepared(s: State, p: nat)
    requires p < NPROC
  {
    && s.procs[p].parent != Some(p)
    && ((s.procs[p].pc.ForkInit? || s.procs[p].pc.ForkReady?) && s.procs[p].pc.i < NPROC ==>
          s.procs[s.procs[p].pc.i].state == USED)
  }

  // ----- control flow -----

  /** A sleep or a wakeup at pc returns to next. */
  predicate Returns(pc: Pc, next: Pc) {
    (pc.SleepReacq? || (pc.WakeAcq? && pc.i >= NPROC)) && pc.ret == next
  }

  /** The program counters from which process p can come to next. */
  predicate Prev(p: nat, pc: Pc, next: Pc) {
    || pc == YieldRel(next)
    || match next
       case Idle => !IsYield(pc)
       case YieldAcq(r) => pc == r && Preemptible(r)
       case YieldSet(r) => pc == YieldAcq(r)
       case YieldSwtch(r) => pc == YieldSet(r)
       case YieldRel(r) => pc == YieldSwtch(r)
       case SleepAcq(ch, lk, r) =>
         (match lk
          case SleepLk(k) => pc == AcqTest(k)
          case OtherLk(j) => pc == Crit(j)
          case WaitLk => pc == WaitKillRel(false))
       case SleepRel(ch, lk, r) => pc == SleepAcq(ch, lk, r)
       case SleepSet(ch, lk, r) => pc == SleepRel(ch, lk, r)
       case SleepSwtch(ch, lk, r) => pc == SleepSet(ch, lk, r)
       case SleepTidy(ch, lk, r) => pc == SleepSwtch(ch, lk, r)
       case SleepUnlock(ch, lk, r) => pc == SleepTidy(ch, lk, r)
       case SleepReacq(ch, lk, r) => pc == SleepUnlock(ch, lk, r)
       case WakeAcq(ch, i, r) =>
         if i > 0 then pc == WakeRel(ch, i - 1, r) || (pc == WakeAcq(ch, i - 1, r) && i - 1 == p)
         else || (pc.RelClear? && r == RelUnlock(pc.k)) || (pc.Crit? && r == pc)
              || (pc.Reparent? && r == if pc.i < NPROC then Reparent(pc.i + 1, pc.status) else ExitLock(pc.status))
       case WakeSet(ch, i, r) => pc == WakeAcq(ch, i, r) && i < NPROC
       case WakeRel(ch, i, r) => pc == WakeSet(ch, i, r)
       case AcqLock(k) => pc == Idle
       case AcqTest(k) => pc == AcqLock(k) || Returns(pc, next)
       case AcqUnlock(k) => pc == AcqTest(k)
       case RelLock(k) => pc == Idle
       case RelClear(k) => pc == RelLock(k)
       case RelUnlock(k) => Returns(pc, next)
       case CritAcq(j) => pc == Idle
       case Crit(j) => pc == CritAcq(j) || Returns(pc, next)
       case ForkScan(i) => pc == Idle || pc.ForkSkip?
       case ForkCheck(i) => pc == ForkScan(i)
       case ForkSkip(i) => pc == ForkCheck(i)
       case ForkInit(i) => pc == ForkCheck(i)
       case ForkFail(i) => pc == ForkInit(i)
       case ForkRel(i) => pc == ForkInit(i)
       case ForkWait(i) => pc == ForkRel(i)
       case ForkParent(i) => pc == ForkWait(i)
       case ForkUnwait(i) => pc == ForkParent(i)
       case ForkLock(i) => pc == ForkUnwait(i)
       case ForkReady(i) => pc == ForkLock(i)
       case ForkDone(i) => pc == ForkReady(i)
       case ExitAcq(st) => pc == Idle
       case Reparent(i, st) =>
         (i == 0 && pc == ExitAcq(st)) || (0 < i <= NPROC && pc == Reparent(i - 1, st)) || Returns(pc, next)
       case ExitLock(st) => Returns(pc, next)
       case ExitSet(st) => pc == ExitLock(st)
       case ExitUnwait => pc.ExitSet?
       case ExitSwtch => pc == ExitUnwait
       case Dead => pc == ExitSwtch
       case WaitAcq => pc == Idle
       case WaitScan(i, kids) =>
         || (i == 0 && !kids && (pc == WaitAcq || Returns(pc, next)))
         || (i > 0 && (pc == WaitScan(i - 1, kids) || (kids && pc == WaitNext(i - 1))))
       case WaitLock(i) => pc.WaitScan? && pc.i == i
       case WaitCheck(i) => pc == WaitLock(i)
       case WaitNext(i) => pc == WaitCheck(i)
       case WaitFreed(i) => pc == WaitCheck(i)
       case WaitKillAcq => pc.WaitScan? && pc.i >= NPROC && pc.kids
       case WaitKillRead => pc == WaitKillAcq
       case WaitKillRel(dead) => pc == WaitKillRead
       case WaitUnwait => pc.WaitScan? || pc.WaitFreed? || pc == WaitKillRel(true)
       case KillAcq(i, pid) => pc == Idle || pc.KillRel?
       case KillSet(i, pid) => pc == KillAcq(i, pid)
       case KillRel(i, pid, found) => pc == KillSet(i, pid)
  }
}
