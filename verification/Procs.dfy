/** Processes, CPUs and the locks between them (kernel/proc.c, kernel/spinlock.c,
    kernel/sleeplock.c) as a state machine. A step is one acquire, one release,
    one group of assignments made under a single lock, or one swtch, taken by the
    thread that some CPU is executing; every interleaving of steps is a run.

    Each process has a program counter in the kernel code it is executing. A
    spinlock is held by a CPU, as lk->cpu records, so p->lock may be acquired by
    a process and released by the scheduler after swtch, or the other way round. */
module Procs {
  import opened Common

  const NCPU: nat := 8
  const INIT: nat := 0  // the slot of initproc

  datatype ProcState = UNUSED | USED | SLEEPING | RUNNABLE | RUNNING | ZOMBIE

  /** Sleep channels: a sleep lock, a process waiting for its children, or the
      address of anything else. */
  datatype Chan = LockChan(k: nat) | ProcChan(p: nat) | OtherChan(a: nat)

  /** Condition locks: wait_lock, the spinlock inside a sleep lock, any other. */
  datatype Lk = WaitLk | SleepLk(k: nat) | OtherLk(j: nat)

  datatype Lock = PLock(p: nat) | CLock(lk: Lk)

  /** Where a process is: each constructor names the step it takes next. */
  datatype Pc =
    | Idle                                          // user code, or kernel code that holds no lock
    // yield(), entered at any point where no lock is held
    | YieldAcq(ret: Pc)                             // acquire(&p->lock)
    | YieldSet(ret: Pc)                             // p->state = RUNNABLE
    | YieldSwtch(ret: Pc)                           // sched()
    | YieldRel(ret: Pc)                             // release(&p->lock); also forkret()
    // sleep(chan, lk)
    | SleepAcq(chan: Chan, lk: Lk, ret: Pc)         // acquire(&p->lock)
    | SleepRel(chan: Chan, lk: Lk, ret: Pc)         // release(lk)
    | SleepSet(chan: Chan, lk: Lk, ret: Pc)         // p->chan = chan; p->state = SLEEPING
    | SleepSwtch(chan: Chan, lk: Lk, ret: Pc)       // sched()
    | SleepTidy(chan: Chan, lk: Lk, ret: Pc)        // p->chan = 0
    | SleepUnlock(chan: Chan, lk: Lk, ret: Pc)      // release(&p->lock)
    | SleepReacq(chan: Chan, lk: Lk, ret: Pc)       // acquire(lk)
    // wakeup(chan), at table entry i
    | WakeAcq(chan: Chan, i: nat, ret: Pc)          // acquire(&p->lock), unless i is the caller
    | WakeSet(chan: Chan, i: nat, ret: Pc)          // if asleep on chan, RUNNABLE
    | WakeRel(chan: Chan, i: nat, ret: Pc)          // release(&p->lock)
    // acquiresleep(k)
    | AcqLock(k: nat)
    | AcqTest(k: nat)                               // while(lk->locked) sleep; lk->locked = 1
    | AcqUnlock(k: nat)
    // releasesleep(k)
    | RelLock(k: nat)
    | RelClear(k: nat)                              // lk->locked = 0; wakeup(lk)
    | RelUnlock(k: nat)
    // any other code that uses a condition lock
    | CritAcq(j: nat)
    | Crit(j: nat)                                  // release, sleep, or wakeup
    // kfork(), for table entry i
    | ForkScan(i: nat)                              // allocproc: acquire(&p->lock)
    | ForkCheck(i: nat)                             // UNUSED? allocpid, USED
    | ForkSkip(i: nat)
    | ForkInit(i: nat)                              // memory allocation and copying
    | ForkFail(i: nat)
    | ForkRel(i: nat)                               // release(&np->lock)
    | ForkWait(i: nat)                              // acquire(&wait_lock)
    | ForkParent(i: nat)                            // np->parent = p
    | ForkUnwait(i: nat)
    | ForkLock(i: nat)                              // acquire(&np->lock)
    | ForkReady(i: nat)                             // np->state = RUNNABLE
    | ForkDone(i: nat)
    // kexit(status)
    | ExitAcq(status: int)                          // acquire(&wait_lock)
    | Reparent(i: nat, status: int)                 // reparent(p) at entry i, then wakeup(p->parent)
    | ExitLock(status: int)                         // acquire(&p->lock)
    | ExitSet(status: int)                          // p->xstate = status; p->state = ZOMBIE
    | ExitUnwait                                    // release(&wait_lock)
    | ExitSwtch                                     // sched()
    | Dead
    // kwait()
    | WaitAcq                                       // acquire(&wait_lock)
    | WaitScan(i: nat, kids: bool)                  // pp->parent == p?
    | WaitLock(i: nat)                              // acquire(&pp->lock)
    | WaitCheck(i: nat)                             // ZOMBIE? freeproc(pp)
    | WaitNext(i: nat)                              // release(&pp->lock)
    | WaitFreed(i: nat)                             // release(&pp->lock)
    | WaitKillAcq                                   // killed(p): acquire(&p->lock)
    | WaitKillRead                                  // k = p->killed
    | WaitKillRel(dead: bool)                        // release(&p->lock)
    | WaitUnwait                                    // release(&wait_lock)
    // kkill(pid), at table entry i
    | KillAcq(i: nat, pid: nat)
    | KillSet(i: nat, pid: nat)                     // p->pid == pid? p->killed = 1, wake it
    | KillRel(i: nat, pid: nat, found: bool)

  /** Where a CPU's scheduler thread is, at table entry i. */
  datatype SchedPc =
    | SchedAcq(i: nat)                              // acquire(&p->lock)
    | SchedCheck(i: nat)                            // RUNNABLE? RUNNING, c->proc = p
    | SchedRun(i: nat)                              // swtch to p
    | SchedBack(i: nat)                             // c->proc = 0
    | SchedRel(i: nat)                              // release(&p->lock)

  /** struct proc, with three fields of bookkeeping: which CPU's c->proc points
      here, which process is creating this one, and the sleep locks it holds. */
  datatype Proc = Proc(
    state: ProcState, chan: Option<Chan>, killed: bool, parent: Option<nat>, pid: nat, xstate: int,
    pc: Pc, on: Option<nat>, forker: Option<nat>, sleepHeld: set<nat>)

  /** struct cpu, the scheduler's program counter, and the process whose thread
      the CPU executes (None: the scheduler's own thread). */
  datatype Cpu = Cpu(proc: Option<nat>, spc: SchedPc, cur: Option<nat>)

  datatype StateData = State(
    procs: seq<Proc>,
    cpus: seq<Cpu>,
    held: map<Lock, nat>,          // held spinlocks and the CPUs holding them
    taken: map<nat, nat>,          // locked sleep locks and their holders (lk->pid)
    nextpid: nat,
    exited: map<nat, int>,         // pid -> status, for processes that have exited
    reaped: map<nat, int>)         // pid -> status, as reported by kwait

  type State = s: StateData | |s.procs| == NPROC && |s.cpus| == NCPU
    witness Boot()

  const BLANK := Proc(UNUSED, None, false, None, 0, 0, Idle, None, None, {})

  /** After procinit and userinit, with every CPU entering scheduler(). */
  function Boot(): (s: StateData)
    ensures |s.procs| == NPROC && |s.cpus| == NCPU
  {
    State(seq(NPROC, i => BLANK)[INIT := Proc(RUNNABLE, None, false, None, 1, 0, YieldRel(Idle), None, None, {})],
          seq(NCPU, i => Cpu(None, SchedAcq(0), None)),
          map[], map[], 2, map[], map[])
  }

  // ----- which locks a thread holds -----

  /** The condition lock held across a wakeup, by where it returns to. */
  function RetLock(ret: Pc): (lk: Option<Lk>) {
    match ret
    case RelUnlock(k) => Some(SleepLk(k))
    case Crit(j) => Some(OtherLk(j))
    case Reparent(_, _) => Some(WaitLk)
    case ExitLock(_) => Some(WaitLk)
    case _ => None
  }

  /** The condition lock held by a process that executes at pc. */
  function CondLock(pc: Pc): (lk: Option<Lk>) {
    match pc
    case SleepAcq(_, lk, _) => Some(lk)
    case SleepRel(_, lk, _) => Some(lk)
    case WakeAcq(_, _, ret) => RetLock(ret)
    case WakeSet(_, _, ret) => RetLock(ret)
    case WakeRel(_, _, ret) => RetLock(ret)
    case AcqTest(k) => Some(SleepLk(k))
    case AcqUnlock(k) => Some(SleepLk(k))
    case RelClear(k) => Some(SleepLk(k))
    case RelUnlock(k) => Some(SleepLk(k))
    case Crit(j) => Some(OtherLk(j))
    case ForkParent(_) => Some(WaitLk)
    case ForkUnwait(_) => Some(WaitLk)
    case Reparent(_, _) => Some(WaitLk)
    case ExitLock(_) => Some(WaitLk)
    case ExitSet(_) => Some(WaitLk)
    case ExitUnwait => Some(WaitLk)
    case WaitScan(_, _) => Some(WaitLk)
    case WaitLock(_) => Some(WaitLk)
    case WaitCheck(_) => Some(WaitLk)
    case WaitNext(_) => Some(WaitLk)
    case WaitFreed(_) => Some(WaitLk)
    case WaitKillAcq => Some(WaitLk)
    case WaitKillRead => Some(WaitLk)
    case WaitKillRel(_) => Some(WaitLk)
    case WaitUnwait => Some(WaitLk)
    case _ => None
  }

  /** The process whose p->lock is held by process p when it executes at pc. */
  function ProcLock(p: nat, pc: Pc): (i: Option<nat>) {
    match pc
    case YieldSet(_) => Some(p)
    case YieldSwtch(_) => Some(p)
    case YieldRel(_) => Some(p)
    case SleepRel(_, _, _) => Some(p)
    case SleepSet(_, _, _) => Some(p)
    case SleepSwtch(_, _, _) => Some(p)
    case SleepTidy(_, _, _) => Some(p)
    case SleepUnlock(_, _, _) => Some(p)
    case WakeSet(_, i, _) => Some(i)
    case WakeRel(_, i, _) => Some(i)
    case ForkCheck(i) => Some(i)
    case ForkSkip(i) => Some(i)
    case ForkInit(i) => Some(i)
    case ForkFail(i) => Some(i)
    case ForkRel(i) => Some(i)
    case ForkReady(i) => Some(i)
    case ForkDone(i) => Some(i)
    case ExitSet(_) => Some(p)
    case ExitUnwait => Some(p)
    case ExitSwtch => Some(p)
    case WaitCheck(i) => Some(i)
    case WaitNext(i) => Some(i)
    case WaitFreed(i) => Some(i)
    case WaitKillRead => Some(p)
    case WaitKillRel(_) => Some(p)
    case KillSet(i, _) => Some(i)
    case KillRel(i, _, _) => Some(i)
    case _ => None
  }

  predicate PcHolds(p: nat, pc: Pc, l: Lock) {
    match l
    case PLock(i) => ProcLock(p, pc) == Some(i)
    case CLock(lk) => CondLock(pc) == Some(lk)
  }

  predicate SchedHolds(spc: SchedPc, l: Lock) {
    match spc
    case SchedAcq(_) => false
    case SchedCheck(i) => l == PLock(i)
    case SchedRun(i) => l == PLock(i)
    case SchedBack(i) => l == PLock(i)
    case SchedRel(i) => l == PLock(i)
  }

  predicate CpuHolds(s: State, c: nat, l: Lock)
    requires c < NCPU
  {
    match s.cpus[c].cur
    case None => SchedHolds(s.cpus[c].spc, l)
    case Some(p) => p < NPROC && PcHolds(p, s.procs[p].pc, l)
  }

  /** p is past the decision to sleep on chan under condition lock lk and has not
      been woken since. */
  predicate Waiting(s: State, p: nat, chan: Chan, lk: Lk)
    requires p < NPROC
  {
    var x := s.procs[p];
    || (x.pc.SleepSet? && x.pc.chan == chan && x.pc.lk == lk)
    || ((x.pc.SleepSwtch? || x.pc.SleepTidy?) && x.pc.chan == chan && x.pc.lk == lk && x.state == SLEEPING)
  }

  // ----- moves -----

  datatype LockOp = Hold | Take(l: Lock) | Give(l: Lock) | Swtch

  datatype Other = Alone | Set(i: nat, x: Proc)

  datatype Note = Quiet | Locks(k: nat) | Unlocks(k: nat) | Allocates | Exits(status: int)
      | Reaps(pid: nat, status: int)

  /** One step of a process: its new entry in the table, what it does to the
      spinlocks, another entry it changes, and any shared record it updates. */
  datatype Move = Move(self: Proc, op: LockOp, other: Other, note: Note)

  function Jump(x: Proc, next: Pc): (m: Move) { Move(x.(pc := next), Hold, Alone, Quiet) }
  function Taking(x: Proc, l: Lock, next: Pc): (m: Move) { Move(x.(pc := next), Take(l), Alone, Quiet) }
  function Giving(x: Proc, l: Lock, next: Pc): (m: Move) { Move(x.(pc := next), Give(l), Alone, Quiet) }
  function Switching(x: Proc, next: Pc): (m: Move) { Move(x.(pc := next), Swtch, Alone, Quiet) }
  function Setting(x: Proc, i: nat, y: Proc, next: Pc): (m: Move) { Move(x.(pc := next), Hold, Set(i, y), Quiet) }

  /** y, made RUNNABLE if it sleeps. */
  function Woken(y: Proc): (r: Proc) {
    if y.state == SLEEPING then y.(state := RUNNABLE) else y
  }

  /** Kernel entry points. A process releases only sleep locks it holds, does not
      exit holding one, and initproc does not exit. */
  predicate MayEnter(s: State, p: nat, pc: Pc)
    requires p < NPROC
  {
    match pc
    case AcqLock(k) => true
    case RelLock(k) => k in s.procs[p].sleepHeld
    case CritAcq(_) => true
    case ForkScan(i) => i == 0
    case ExitAcq(_) => p != INIT && s.procs[p].sleepHeld == {}
    case WaitAcq => true
    case KillAcq(i, _) => i == 0
    case _ => false
  }

  /** Points where no spinlock is held, so interrupts may be on. */
  predicate Preemptible(pc: Pc) {
    || pc.Idle? || pc.SleepReacq? || pc.AcqLock? || pc.RelLock? || pc.CritAcq?
    || pc.ForkScan? || pc.ForkWait? || pc.ForkLock? || pc.ExitAcq? || pc.WaitAcq? || pc.KillAcq?
  }

  /** A timer interrupt while no lock is held, or a system call. */
  predicate EnterMove(s: State, p: nat, m: Move)
    requires p < NPROC
  {
    var x := s.procs[p];
    || (Preemptible(x.pc) && m == Jump(x, YieldAcq(x.pc)))
    || (x.pc == Idle && MayEnter(s, p, m.self.pc) && m == Jump(x, m.self.pc))
  }

  predicate YieldMove(s: State, p: nat, m: Move)
    requires p < NPROC
  {
    var x := s.procs[p];
    match x.pc
    case YieldAcq(r) => m == Taking(x, PLock(p), YieldSet(r))
    case YieldSet(r) => m == Jump(x.(state := RUNNABLE), YieldSwtch(r))
    case YieldSwtch(r) => m == Switching(x, YieldRel(r))
    case YieldRel(r) => m == Giving(x, PLock(p), r)
    case _ => false
  }

  predicate SleepMove(s: State, p: nat, m: Move)
    requires p < NPROC
  {
    var x := s.procs[p];
    match x.pc
    case SleepAcq(ch, lk, r) => m == Taking(x, PLock(p), SleepRel(ch, lk, r))
    case SleepRel(ch, lk, r) => m == Giving(x, CLock(lk), SleepSet(ch, lk, r))
    case SleepSet(ch, lk, r) => m == Jump(x.(chan := Some(ch), state := SLEEPING), SleepSwtch(ch, lk, r))
    case SleepSwtch(ch, lk, r) => m == Switching(x, SleepTidy(ch, lk, r))
    case SleepTidy(ch, lk, r) => m == Jump(x.(chan := None), SleepUnlock(ch, lk, r))
    case SleepUnlock(ch, lk, r) => m == Giving(x, PLock(p), SleepReacq(ch, lk, r))
    case SleepReacq(ch, lk, r) => m == Taking(x, CLock(lk), r)
    case _ => false
  }

  predicate WakeMove(s: State, p: nat, m: Move)
    requires p < NPROC
  {
    var x := s.procs[p];
    match x.pc
    case WakeAcq(ch, i, r) =>
      if i >= NPROC then m == Jump(x, r)
      else if i == p then m == Jump(x, WakeAcq(ch, i + 1, r))
      else m == Taking(x, PLock(i), WakeSet(ch, i, r))
    case WakeSet(ch, i, r) =>
      && i < NPROC
      && m == if s.procs[i].chan == Some(ch) then Setting(x, i, Woken(s.procs[i]), WakeRel(ch, i, r))
              else Jump(x, WakeRel(ch, i, r))
    case WakeRel(ch, i, r) => m == Giving(x, PLock(i), WakeAcq(ch, i + 1, r))
    case _ => false
  }

  predicate SleepLockMove(s: State, p: nat, m: Move)
    requires p < NPROC
  {
    var x := s.procs[p];
    match x.pc
    case AcqLock(k) => m == Taking(x, CLock(SleepLk(k)), AcqTest(k))
    case AcqTest(k) =>
      if k in s.taken then m == Jump(x, SleepAcq(LockChan(k), SleepLk(k), AcqTest(k)))
      else m == Jump(x.(sleepHeld := x.sleepHeld + {k}), AcqUnlock(k)).(note := Locks(k))
    case AcqUnlock(k) => m == Giving(x, CLock(SleepLk(k)), Idle)
    case RelLock(k) => m == Taking(x, CLock(SleepLk(k)), RelClear(k))
    case RelClear(k) =>
      m == Jump(x.(sleepHeld := x.sleepHeld - {k}), WakeAcq(LockChan(k), 0, RelUnlock(k))).(note := Unlocks(k))
    case RelUnlock(k) => m == Giving(x, CLock(SleepLk(k)), Idle)
    case _ => false
  }

  predicate CritMove(s: State, p: nat, m: Move)
    requires p < NPROC
  {
    var x, next := s.procs[p], m.self.pc;
    match x.pc
    case CritAcq(j) => m == Taking(x, CLock(OtherLk(j)), Crit(j))
    case Crit(j) =>
      || m == Giving(x, CLock(OtherLk(j)), Idle)
      || (next.SleepAcq? && next.chan.OtherChan? && m == Jump(x, SleepAcq(next.chan, OtherLk(j), Crit(j))))
      || (next.WakeAcq? && m == Jump(x, WakeAcq(next.chan, 0, Crit(j))))
    case _ => false
  }

  predicate ForkMove(s: State, p: nat, m: Move)
    requires p < NPROC
  {
    var x := s.procs[p];
    match x.pc
    case ForkScan(i) => m == if i >= NPROC then Jump(x, Idle) else Taking(x, PLock(i), ForkCheck(i))
    case ForkCheck(i) =>
      && i < NPROC
      && m == if s.procs[i].state != UNUSED then Jump(x, ForkSkip(i))
              else Setting(x, i, s.procs[i].(state := USED, pid := s.nextpid, pc := YieldRel(Idle), forker := Some(p)),
                           ForkInit(i)).(note := Allocates)
    case ForkSkip(i) => m == Giving(x, PLock(i), ForkScan(i + 1))
    case ForkInit(i) => i < NPROC && (m == Jump(x, ForkRel(i)) || m == Setting(x, i, BLANK, ForkFail(i)))
    case ForkFail(i) => m == Giving(x, PLock(i), Idle)
    case ForkRel(i) => m == Giving(x, PLock(i), ForkWait(i))
    case ForkWait(i) => m == Taking(x, CLock(WaitLk), ForkParent(i))
    case ForkParent(i) => i < NPROC && m == Setting(x, i, s.procs[i].(parent := Some(p)), ForkUnwait(i))
    case ForkUnwait(i) => m == Giving(x, CLock(WaitLk), ForkLock(i))
    case ForkLock(i) => m == Taking(x, PLock(i), ForkReady(i))
    case ForkReady(i) =>
      i < NPROC && m == Setting(x, i, s.procs[i].(state := RUNNABLE, forker := None), ForkDone(i))
    case ForkDone(i) => m == Giving(x, PLock(i), Idle)
    case _ => false
  }

  predicate ExitMove(s: State, p: nat, m: Move)
    requires p < NPROC
  {
    var x := s.procs[p];
    match x.pc
    case ExitAcq(st) => m == Taking(x, CLock(WaitLk), Reparent(0, st))
    case Reparent(i, st) =>
      m == if i >= NPROC then
             Jump(x, WakeAcq(if x.parent.Some? then ProcChan(x.parent.value) else OtherChan(0), 0, ExitLock(st)))
           else if s.procs[i].parent == Some(p) then
             Setting(x, i, s.procs[i].(parent := Some(INIT)), WakeAcq(ProcChan(INIT), 0, Reparent(i + 1, st)))
           else Jump(x, Reparent(i + 1, st))
    case ExitLock(st) => m == Taking(x, PLock(p), ExitSet(st))
    case ExitSet(st) => m == Jump(x.(xstate := st, state := ZOMBIE), ExitUnwait).(note := Exits(st))
    case ExitUnwait => m == Giving(x, CLock(WaitLk), ExitSwtch)
    case ExitSwtch => m == Switching(x, Dead)
    case _ => false
  }

  predicate WaitMove(s: State, p: nat, m: Move)
    requires p < NPROC
  {
    var x := s.procs[p];
    match x.pc
    case WaitAcq => m == Taking(x, CLock(WaitLk), WaitScan(0, false))
    case WaitScan(i, kids) =>
      m == Jump(x, if i >= NPROC then if kids then WaitKillAcq else WaitUnwait
                   else if s.procs[i].parent == Some(p) then WaitLock(i) else WaitScan(i + 1, kids))
    case WaitLock(i) => m == Taking(x, PLock(i), WaitCheck(i))
    case WaitCheck(i) =>
      && i < NPROC
      && if s.procs[i].state != ZOMBIE then m == Jump(x, WaitNext(i))
         else || m == Jump(x, WaitFreed(i))  // copyout failed
              || m == Setting(x, i, BLANK, WaitFreed(i)).(note := Reaps(s.procs[i].pid, s.procs[i].xstate))
    case WaitNext(i) => m == Giving(x, PLock(i), WaitScan(i + 1, true))
    case WaitFreed(i) => m == Giving(x, PLock(i), WaitUnwait)
    case WaitKillAcq => m == Taking(x, PLock(p), WaitKillRead)
    case WaitKillRead => m == Jump(x, WaitKillRel(x.killed))
    case WaitKillRel(dead) =>
      m == Giving(x, PLock(p), if dead then WaitUnwait else SleepAcq(ProcChan(p), WaitLk, WaitScan(0, false)))
    case WaitUnwait => m == Giving(x, CLock(WaitLk), Idle)
    case _ => false
  }

  predicate KillMove(s: State, p: nat, m: Move)
    requires p < NPROC
  {
    var x := s.procs[p];
    match x.pc
    case KillAcq(i, pid) => m == if i >= NPROC then Jump(x, Idle) else Taking(x, PLock(i), KillSet(i, pid))
    case KillSet(i, pid) =>
      && i < NPROC
      && m == if s.procs[i].pid != pid then Jump(x, KillRel(i, pid, false))
              else if i == p then Jump(x.(killed := true), KillRel(i, pid, true))
              else Setting(x, i, Woken(s.procs[i].(killed := true)), KillRel(i, pid, true))
    case KillRel(i, pid, found) => m == Giving(x, PLock(i), if found then Idle else KillAcq(i + 1, pid))
    case _ => false
  }

  predicate May(s: State, p: nat, m: Move)
    requires p < NPROC
  {
    || EnterMove(s, p, m) || YieldMove(s, p, m) || SleepMove(s, p, m) || WakeMove(s, p, m) || SleepLockMove(s, p, m)
    || CritMove(s, p, m) || ForkMove(s, p, m) || ExitMove(s, p, m) || WaitMove(s, p, m) || KillMove(s, p, m)
  }

  /** acquire waits until the lock is free. */
  predicate Unblocked(s: State, m: Move) {
    (m.op.Take? ==> m.op.l !in s.held) && (m.other.Set? ==> m.other.i < NPROC)
  }

  /** The table after the move. */
  function Table(s: State, p: nat, m: Move): (procs: seq<Proc>)
    requires p < NPROC && Unblocked(s, m)
    ensures |procs| == NPROC && procs[p] == m.self
    ensures m.other.Set? && m.other.i != p ==> procs[m.other.i] == m.other.x
    ensures forall q: nat :: q < NPROC && q != p && (m.other.Set? ==> q != m.other.i) ==> procs[q] == s.procs[q]
  {
    (if m.other.Set? then s.procs[m.other.i := m.other.x] else s.procs)[p := m.self]
  }

  /** The table, the locks and the records after process p on CPU c makes move m. */
  function Perform(s: State, c: nat, p: nat, m: Move): (r: State)
    requires p < NPROC && c < NCPU && Unblocked(s, m)
  {
    State(
      Table(s, p, m),
      if m.op.Swtch? then s.cpus[c := s.cpus[c].(cur := None)] else s.cpus,
      match m.op { case Take(l) => s.held[l := c] case Give(l) => s.held - {l} case _ => s.held },
      match m.note { case Locks(k) => s.taken[k := p] case Unlocks(k) => s.taken - {k} case _ => s.taken },
      if m.note.Allocates? then s.nextpid + 1 else s.nextpid,
      if m.note.Exits? then s.exited[m.self.pid := m.note.status] else s.exited,
      if m.note.Reaps? then s.reaped[m.note.pid := m.note.status] else s.reaped)
  }

  predicate SchedStep(s: State, s': State, c: nat)
    requires c < NCPU
  {
    var u := s.cpus[c];
    match u.spc
    case SchedAcq(i) =>
      && PLock(i) !in s.held
      && s' == s.(held := s.held[PLock(i) := c], cpus := s.cpus[c := u.(spc := SchedCheck(i))])
    case SchedCheck(i) =>
      && i < NPROC
      && if s.procs[i].state == RUNNABLE then
           s' == s.(procs := s.procs[i := s.procs[i].(state := RUNNING, on := Some(c))],
                    cpus := s.cpus[c := u.(spc := SchedRun(i), proc := Some(i))])
         else s' == s.(cpus := s.cpus[c := u.(spc := SchedRel(i))])
    case SchedRun(i) => s' == s.(cpus := s.cpus[c := u.(spc := SchedBack(i), cur := Some(i))])
    case SchedBack(i) =>
      && i < NPROC
      && s' == s.(procs := s.procs[i := s.procs[i].(on := None)],
                  cpus := s.cpus[c := u.(spc := SchedRel(i), proc := None)])
    case SchedRel(i) =>
      s' == s.(held := s.held - {PLock(i)},
               cpus := s.cpus[c := u.(spc := SchedAcq(if i + 1 < NPROC then i + 1 else 0))])
  }

  predicate ProcStep(s: State, s': State, c: nat, p: nat, m: Move)
    requires p < NPROC && c < NCPU
  {
    May(s, p, m) && Unblocked(s, m) && s' == Perform(s, c, p, m)
  }

  /** CPU c takes one step of the thread it executes. */
  ghost predicate Next(s: State, s': State, c: nat) {
    && c < NCPU
    && match s.cpus[c].cur
       case None => SchedStep(s, s', c)
       case Some(p) => p < NPROC && exists m :: ProcStep(s, s', c, p, m)
  }
}
