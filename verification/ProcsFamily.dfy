/** Parents, children, and the hand-over of exit statuses. */
module ProcsFamilyInv {
  import opened Common
  import opened Procs
  import opened ProcsInv
  import opened ProcsSleepInv

  // ----- kfork -----

  /** The entry a process in kfork is filling in. */
  function ForkTarget(pc: Pc): (i: Option<nat>) {
    match pc
    case ForkInit(i) => Some(i)
    case ForkRel(i) => Some(i)
    case ForkWait(i) => Some(i)
    case ForkParent(i) => Some(i)
    case ForkUnwait(i) => Some(i)
    case ForkLock(i) => Some(i)
    case ForkReady(i) => Some(i)
    case _ => None
  }

  /** kfork has set the new process's parent. */
  predicate Linked(pc: Pc) {
    pc.ForkUnwait? || pc.ForkLock? || pc.ForkReady?
  }

  ghost predicate ForkerOk(s: State, q: nat)
    requires q < NPROC
  {
    var t := ForkTarget(Base(s.procs[q].pc));
    t.Some? ==> t.value < NPROC && s.procs[t.value].forker == Some(q) && s.procs[t.value].state == USED
  }

  /** USED entries are exactly the ones some kfork is filling in. */
  ghost predicate ChildOk(s: State, i: nat)
    requires i < NPROC
  {
    var x := s.procs[i];
    && (x.state == USED <==> x.forker.Some?)
    && (x.forker.Some? ==>
          var q := x.forker.value;
          && q < NPROC && ForkTarget(Base(s.procs[q].pc)) == Some(i)
          && x.parent == if Linked(Base(s.procs[q].pc)) then Some(q) else None)
  }

  ghost predicate ForkInv(s: State) {
    && (forall q: nat :: q < NPROC ==> ForkerOk(s, q))
    && (forall i: nat :: i < NPROC ==> ChildOk(s, i))
  }

  // ----- parents -----

  predicate Live(state: ProcState) {
    state == SLEEPING || state == RUNNABLE || state == RUNNING
  }

  /** Every process but init has a live parent other than itself, from before it
      first runs until it is freed; init lives for ever. */
  ghost predicate ParentOk(s: State, i: nat)
    requires i < NPROC
  {
    var x := s.procs[i];
    && (x.parent.Some? ==>
          x.parent.value < NPROC && x.parent.value != i && Live(s.procs[x.parent.value].state) && x.state != UNUSED)
    && ((Live(x.state) || x.state == ZOMBIE) && i != INIT ==> x.parent.Some?)
    && (i == INIT ==> Live(x.state) && x.parent == None)
  }

  // ----- kexit -----

  /** The entries below this number are no longer children of a process at pc. */
  function Cleared(pc: Pc): (n: nat) {
    if pc.Reparent? then pc.i
    else if IsWake(pc) && pc.ret.Reparent? then pc.ret.i
    else if (IsWake(pc) && pc.ret.ExitLock?) || pc.ExitLock? || pc.ExitSet? || pc.ExitUnwait? || pc.ExitSwtch?
            || pc.Dead? then NPROC
    else 0
  }

  ghost predicate ClearedOk(s: State, q: nat, j: nat)
    requires q < NPROC && j < NPROC
  {
    j < Cleared(s.procs[q].pc) ==> s.procs[j].parent != Some(q)
  }

  /** q waits in kwait for a child to exit. */
  ghost predicate Waits(s: State, q: nat)
    requires q < NPROC
  {
    Waiting(s, q, ProcChan(q), WaitLk)
  }

  /** In kexit from the wakeup of the parent up to the exit itself. */
  predicate Leaves(pc: Pc) {
    (IsWake(pc) && pc.ret.ExitLock?) || pc.ExitLock? || pc.ExitSet?
  }

  /** kexit wakes the parent it has at that time, and the parent stays awake until
      the exit is visible to it. */
  ghost predicate ExitWakeOk(s: State, j: nat)
    requires j < NPROC
  {
    var x := s.procs[j];
    && (IsWake(x.pc) && x.pc.ret.ExitLock? && x.parent.Some? ==> x.pc.chan == ProcChan(x.parent.value))
    && ((x.pc.ExitLock? || x.pc.ExitSet?) && x.parent.Some? && x.parent.value < NPROC ==> !Waits(s, x.parent.value))
  }

  ghost predicate FamilyInv(s: State) {
    && (forall i: nat :: i < NPROC ==> ParentOk(s, i))
    && (forall q: nat, j: nat :: q < NPROC && j < NPROC ==> ClearedOk(s, q, j))
    && (forall j: nat :: j < NPROC ==> ExitWakeOk(s, j))
  }

  // ----- kwait -----

  ghost predicate ZombieChild(s: State, q: nat, j: nat)
    requires j < NPROC
  {
    s.procs[j].parent == Some(q) && s.procs[j].state == ZOMBIE
  }

  /** kwait at pc has found no exited child below this entry. */
  function Scanned(pc: Pc): (n: nat) {
    match pc
    case WaitScan(i, _) => i
    case WaitLock(i) => i
    case WaitCheck(i) => i
    case WaitNext(i) => i + 1
    case WaitKillAcq => NPROC
    case WaitKillRead => NPROC
    case WaitKillRel(_) => NPROC
    case SleepAcq(_, lk, _) => if lk.WaitLk? then NPROC else 0
    case SleepRel(_, lk, _) => if lk.WaitLk? then NPROC else 0
    case _ => 0
  }

  ghost predicate ScanOk(s: State, q: nat, j: nat)
    requires q < NPROC && j < NPROC
  {
    var pc := s.procs[q].pc;
    && (j < Scanned(pc) ==> !ZombieChild(s, q, j))
    && (pc.WaitScan? && !pc.kids && j < pc.i ==> s.procs[j].parent != Some(q))
  }

  /** kwait is looking at a child. */
  predicate AtKid(pc: Pc) {
    pc.WaitLock? || pc.WaitCheck? || pc.WaitNext?
  }

  /** kwait has seen a child. */
  predicate SawKid(pc: Pc) {
    || AtKid(pc) || (pc.WaitScan? && pc.kids) || pc.WaitKillAcq? || pc.WaitKillRead? || (pc.WaitKillRel? && !pc.dead)
    || (IsSleep(pc) && pc.lk.WaitLk?)
  }

  ghost predicate HasKid(s: State, q: nat) {
    exists j: nat :: j < NPROC && s.procs[j].parent == Some(q)
  }

  ghost predicate KidOk(s: State, q: nat)
    requires q < NPROC
  {
    var pc := s.procs[q].pc;
    && (AtKid(pc) ==> pc.i < NPROC && s.procs[pc.i].parent == Some(q))
    && (SawKid(Base(pc)) ==> HasKid(s, q))
  }

  /** No exit is missed: while q sleeps in kwait with an exited child, some kexit
      is in wakeup(q), holds wait_lock, and has yet to reach q. */
  ghost predicate ExitSeen(s: State, q: nat, j: nat)
    requires q < NPROC && j < NPROC
  {
    Waits(s, q) && ZombieChild(s, q, j) ==> exists r: nat :: r < NPROC && WillWake(s, r, q, ProcChan(q), WaitLk)
  }

  ghost predicate WaitInv(s: State) {
    && (forall q: nat, j: nat :: q < NPROC && j < NPROC ==> ScanOk(s, q, j))
    && (forall q: nat :: q < NPROC ==> KidOk(s, q))
    && (forall q: nat, j: nat :: q < NPROC && j < NPROC ==> ExitSeen(s, q, j))
  }

  /** What one move of one process assumes. */
  ghost predicate Step(s: State, c: nat, p: nat, m: Move) {
    Moves(s, c, p, m) && WakeInv(s) && ForkInv(s) && FamilyInv(s)
  }
}

module ProcsFamily {
  import opened Common
  import opened Procs
  import opened ProcsInv
  import opened ProcsMoves
  import opened ProcsCore
  import opened ProcsSleepInv
  import opened ProcsSleep
  import opened ProcsFamilyInv

  // ----- flow -----

  /** A process does not change its own parent, forker or pid. */
  lemma SelfKeeps(s: State, p: nat, m: Move)
    requires p < NPROC && May(s, p, m)
    ensures m.self.parent == s.procs[p].parent && m.self.forker == s.procs[p].forker && m.self.pid == s.procs[p].pid
  {
    if ForkMove(s, p, m) || ExitMove(s, p, m) || WaitMove(s, p, m) || KillMove(s, p, m) {
      CallKeeps(s, p, m);
    } else if SleepMove(s, p, m) || WakeMove(s, p, m) || SleepLockMove(s, p, m) {
      SleepKeeps(s, p, m);
    }
  }

  lemma SleepKeeps(s: State, p: nat, m: Move)
    requires p < NPROC && (SleepMove(s, p, m) || WakeMove(s, p, m) || SleepLockMove(s, p, m))
    ensures m.self.parent == s.procs[p].parent && m.self.forker == s.procs[p].forker && m.self.pid == s.procs[p].pid
  {}

  lemma CallKeeps(s: State, p: nat, m: Move)
    requires p < NPROC && (ForkMove(s, p, m) || ExitMove(s, p, m) || WaitMove(s, p, m) || KillMove(s, p, m))
    ensures m.self.parent == s.procs[p].parent && m.self.forker == s.procs[p].forker && m.self.pid == s.procs[p].pid
  {}

  lemma SelfState(s: State, p: nat, m: Move)
    requires p < NPROC && May(s, p, m)
    ensures var x, y := s.procs[p], m.self;
      || y.state == x.state || (x.pc.YieldSet? && y.state == RUNNABLE) || (x.pc.SleepSet? && y.state == SLEEPING)
      || (x.pc.ExitSet? && y.state == ZOMBIE)
  {}

  lemma PrevIntoFork(p: nat, pc: Pc, next: Pc, i: nat)
    requires Prev(p, pc, next) && !IsYield(pc) && ForkTarget(next) == Some(i)
    ensures pc == ForkCheck(i) || ForkTarget(pc) == Some(i)
  {}

  lemma IntoFork(s: State, p: nat, m: Move, i: nat)
    requires p < NPROC && PcWf(p, s.procs[p].pc) && May(s, p, m) && ForkTarget(Base(m.self.pc)) == Some(i)
    ensures var pc := s.procs[p].pc;
      || (pc == ForkCheck(i) && m.self.pc == ForkInit(i) && m.other.Set? && m.other.i == i)
      || (ForkTarget(Base(pc)) == Some(i) && (m.other.Set? ==> pc == ForkParent(i)))
  {
    StepPrev(s, p, m);
    var pc, next := s.procs[p].pc, m.self.pc;
    if IsYield(pc) || IsYield(next) { PrevBase(p, pc, next); } else { PrevIntoFork(p, pc, next, i); }
  }

  lemma OutOfFork(s: State, p: nat, m: Move, i: nat)
    requires p < NPROC && PcWf(p, s.procs[p].pc) && May(s, p, m) && ForkTarget(Base(s.procs[p].pc)) == Some(i)
    ensures var pc := s.procs[p].pc;
      || (ForkTarget(Base(m.self.pc)) == Some(i) && Linked(Base(m.self.pc)) == Linked(Base(pc)))
      || (m.other.Set? && m.other.i == i)
  {
    if ForkMove(s, p, m) { ForkGoesOn(s, p, m, i); }
  }

  lemma ForkGoesOn(s: State, p: nat, m: Move, i: nat)
    requires p < NPROC && PcWf(p, s.procs[p].pc) && ForkMove(s, p, m) && ForkTarget(Base(s.procs[p].pc)) == Some(i)
    ensures var pc := s.procs[p].pc;
      || (ForkTarget(Base(m.self.pc)) == Some(i) && Linked(Base(m.self.pc)) == Linked(Base(pc)))
      || (m.other.Set? && m.other.i == i)
  {}

  // ----- kfork -----

  /** A process in kfork is not UNUSED, USED or ZOMBIE. */
  lemma ForkerLives(s: State, q: nat)
    requires Core(s) && q < NPROC && ForkTarget(Base(s.procs[q].pc)).Some?
    ensures s.procs[q].state == RUNNABLE || s.procs[q].state == RUNNING
  {
    assert ProcOk(s, q);
  }

  lemma MoverState(s: State, c: nat, p: nat)
    requires Core(s) && Runs(s, c, p)
    ensures s.procs[p].state != UNUSED && s.procs[p].state != USED
  {
    Here(s, c, p);
  }

  /** An entry that some kfork is filling in is left alone by everyone else. */
  lemma ElseUsed(s: State, c: nat, p: nat, m: Move, i: nat)
    requires Step(s, c, p, m) && i < NPROC && s.procs[i].state == USED && s.procs[i].forker != Some(p)
    ensures i != p
    ensures var x, y := s.procs[i], Perform(s, c, p, m).procs[i]; y == x.(killed := y.killed)
  {
    MoverState(s, c, p);
    ElseChange(s, c, p, m, i);
    assert ForkerOk(s, p) && ChildOk(s, i);
    assert ForkTarget(Base(s.procs[p].pc)) != Some(i);
  }

  lemma ForkerKept(s: State, c: nat, p: nat, m: Move, q: nat)
    requires Step(s, c, p, m) && q < NPROC
    ensures ForkerOk(Perform(s, c, p, m), q)
  {
    var s' := Perform(s, c, p, m);
    var t := ForkTarget(Base(s'.procs[q].pc));
    if t.Some? {
      var i := t.value;
      if q == p {
        Here(s, c, p);
        IntoFork(s, p, m, i);
        assert ForkerOk(s, p);
        MoverState(s, c, p);
        if m.other.Set? { Touches(s, p, m); }
      } else {
        ElseChange(s, c, p, m, q);
        assert ForkerOk(s, q);
        ElseUsed(s, c, p, m, i);
      }
    }
  }

  /** The mover's own entry stays as ForkInv wants it. */
  lemma OwnChildKept(s: State, c: nat, p: nat, m: Move)
    requires Step(s, c, p, m)
    ensures ChildOk(Perform(s, c, p, m), p)
  {
    Here(s, c, p);
    SelfKeeps(s, p, m);
    SelfState(s, p, m);
    assert ChildOk(s, p);
  }

  lemma UntouchedChildKept(s: State, c: nat, p: nat, m: Move, i: nat)
    requires Step(s, c, p, m) && i < NPROC && i != p && (m.other.Set? ==> m.other.i != i)
    ensures ChildOk(Perform(s, c, p, m), i)
  {
    assert ChildOk(s, i);
    if s.procs[i].forker.Some? {
      var q := s.procs[i].forker.value;
      if q == p {
        Here(s, c, p);
        OutOfFork(s, p, m, i);
      } else {
        ForkerLives(s, q);
        ElsePc(s, c, p, m, q);
      }
    }
  }

  lemma TouchedChildKept(s: State, c: nat, p: nat, m: Move, i: nat)
    requires Step(s, c, p, m) && i < NPROC && i != p && m.other.Set? && m.other.i == i
    ensures ChildOk(Perform(s, c, p, m), i)
  {
    Touches(s, p, m);
    assert ChildOk(s, i) && ForkerOk(s, p) && ParentOk(s, i);
    if s.procs[i].forker.Some? && s.procs[i].forker.value != p { ForkedElsewhere(s, c, p, m, i); }
  }

  lemma ForkedElsewhere(s: State, c: nat, p: nat, m: Move, i: nat)
    requires Step(s, c, p, m) && i < NPROC && i != p && m.other.Set? && m.other.i == i
    requires s.procs[i].forker.Some? && s.procs[i].forker.value != p
    ensures ChildOk(Perform(s, c, p, m), i)
  {
    Touches(s, p, m);
    assert ChildOk(s, i) && ForkerOk(s, p);
    var q := s.procs[i].forker.value;
    ElseUsed(s, c, p, m, i);
    ForkerLives(s, q);
    ElsePc(s, c, p, m, q);
  }

  // ----- parents -----

  lemma LiveKept(s: State, c: nat, p: nat, m: Move, q: nat)
    requires Step(s, c, p, m) && q < NPROC && Live(s.procs[q].state)
    ensures Live(Perform(s, c, p, m).procs[q].state) || (q == p && s.procs[p].pc.ExitSet?)
  {
    if q == p {
      SelfState(s, p, m);
    } else {
      ElseChange(s, c, p, m, q);
      assert ForkerOk(s, p);
    }
  }

  lemma OwnParentKept(s: State, c: nat, p: nat, m: Move)
    requires Step(s, c, p, m)
    ensures ParentOk(Perform(s, c, p, m), p)
  {
    Here(s, c, p);
    SelfKeeps(s, p, m);
    SelfState(s, p, m);
    assert ParentOk(s, p);
    if s.procs[p].parent.Some? { LiveKept(s, c, p, m, s.procs[p].parent.value); }
  }

  lemma UntouchedParentKept(s: State, c: nat, p: nat, m: Move, i: nat)
    requires Step(s, c, p, m) && i < NPROC && i != p && (m.other.Set? ==> m.other.i != i)
    ensures ParentOk(Perform(s, c, p, m), i)
  {
    assert ParentOk(s, i) && ClearedOk(s, p, i);
    if s.procs[i].parent.Some? { LiveKept(s, c, p, m, s.procs[i].parent.value); }
  }

  lemma TouchedParentLives(s: State, c: nat, p: nat, m: Move, i: nat)
    requires Step(s, c, p, m) && i < NPROC && i != p && m.other.Set? && m.other.i == i && m.other.x.parent.Some?
    ensures var q := m.other.x.parent.value; q < NPROC && q != i && Live(Perform(s, c, p, m).procs[q].state)
  {
    Here(s, c, p);
    Touches(s, p, m);
    assert ParentOk(s, i) && ParentOk(s, INIT) && ClearedOk(s, p, i);
    LiveKept(s, c, p, m, m.other.x.parent.value);
  }

  lemma TouchedParentKept(s: State, c: nat, p: nat, m: Move, i: nat)
    requires Step(s, c, p, m) && i < NPROC && i != p && m.other.Set? && m.other.i == i
    ensures ParentOk(Perform(s, c, p, m), i)
  {
    Touches(s, p, m);
    assert ChildOk(s, i) && ForkerOk(s, p) && ParentOk(s, i);
    if m.other.x.parent.Some? { TouchedParentLives(s, c, p, m, i); }
  }

  // ----- kexit -----

  /** Only kexit and its wakeups get past children. */
  lemma PrevIntoCleared(p: nat, pc: Pc, next: Pc)
    requires PcWf(p, pc) && Prev(p, pc, next) && Cleared(next) > 0 && !IsWake(next)
    ensures IsWake(pc) || pc.Reparent? || pc.ExitLock? || pc.ExitSet? || pc.ExitUnwait? || pc.ExitSwtch?
  {
    if next.Reparent? || next.ExitLock? { PrevIntoReparent(p, pc, next); }
  }

  lemma PrevIntoReparent(p: nat, pc: Pc, next: Pc)
    requires PcWf(p, pc) && Prev(p, pc, next) && Cleared(next) > 0 && (next.Reparent? || next.ExitLock?)
    ensures IsWake(pc) || pc.Reparent?
  {}

  lemma PrevIntoExitWake(p: nat, pc: Pc, next: Pc)
    requires PcWf(p, pc) && Prev(p, pc, next) && IsWake(next) && (next.ret.Reparent? || next.ret.ExitLock?)
    ensures IsWake(pc) || pc.Reparent?
  {}

  lemma ReparentClears(s: State, p: nat, m: Move, j: nat)
    requires p < NPROC && PcWf(p, s.procs[p].pc) && May(s, p, m) && s.procs[p].pc.Reparent?
    requires j < NPROC && j < Cleared(m.self.pc)
    ensures var pc := s.procs[p].pc;
      j < Cleared(pc) || (pc.i == j && (s.procs[j].parent == Some(p) ==> m.other.Set? && m.other.i == j))
  {}

  lemma ExitClears(s: State, p: nat, m: Move)
    requires p < NPROC && May(s, p, m) && Cleared(m.self.pc) > 0
    requires s.procs[p].pc.ExitLock? || s.procs[p].pc.ExitSet? || s.procs[p].pc.ExitUnwait? || s.procs[p].pc.ExitSwtch?
    ensures Cleared(m.self.pc) <= Cleared(s.procs[p].pc)
  {}

  lemma WakeClears(s: State, p: nat, m: Move)
    requires p < NPROC && PcWf(p, s.procs[p].pc) && May(s, p, m) && IsWake(s.procs[p].pc) && Cleared(m.self.pc) > 0
    ensures Cleared(m.self.pc) <= Cleared(s.procs[p].pc)
  {}

  lemma IntoCleared(s: State, p: nat, m: Move, j: nat)
    requires p < NPROC && PcWf(p, s.procs[p].pc) && May(s, p, m) && j < NPROC && j < Cleared(m.self.pc)
    ensures p != INIT && !s.procs[p].pc.ForkParent?
    ensures var pc := s.procs[p].pc;
      j < Cleared(pc) || (pc.Reparent? && pc.i == j
          && (s.procs[j].parent == Some(p) ==> m.other.Set? && m.other.i == j))
  {
    ClearedPrev(s, p, m);
    var pc := s.procs[p].pc;
    if pc.Reparent? { ReparentClears(s, p, m, j); }
    else if IsWake(pc) { WakeClears(s, p, m); }
    else { ExitClears(s, p, m); }
  }

  lemma ClearedPrev(s: State, p: nat, m: Move)
    requires p < NPROC && PcWf(p, s.procs[p].pc) && May(s, p, m) && Cleared(m.self.pc) > 0
    ensures var pc := s.procs[p].pc;
      IsWake(pc) || pc.Reparent? || pc.ExitLock? || pc.ExitSet? || pc.ExitUnwait? || pc.ExitSwtch?
  {
    StepPrev(s, p, m);
    var pc, next := s.procs[p].pc, m.self.pc;
    if IsWake(next) { PrevIntoExitWake(p, pc, next); } else { PrevIntoCleared(p, pc, next); }
  }

  /** How a parent changes. */
  lemma ParentChange(s: State, c: nat, p: nat, m: Move, j: nat)
    requires Moves(s, c, p, m) && j < NPROC
    ensures var pc, x, y := s.procs[p].pc, s.procs[j], Perform(s, c, p, m).procs[j];
      || y.parent == x.parent
      || (pc == ForkParent(j) && y.parent == Some(p))
      || (pc.Reparent? && pc.i == j && x.parent == Some(p) && y.parent == Some(INIT))
      || (pc == ForkInit(j) && y.parent == None)
      || (pc == WaitCheck(j) && x.state == ZOMBIE && y.parent == None)
  {
    if j == p { SelfKeeps(s, p, m); } else { ElseChange(s, c, p, m, j); }
  }

  /** A process that others can reset is not in kexit before its end, nor in wakeup. */
  lemma ElseBusy(s: State, c: nat, p: nat, m: Move, q: nat)
    requires Moves(s, c, p, m) && q < NPROC && q != p
    ensures var pc, next := s.procs[q].pc, Perform(s, c, p, m).procs[q].pc;
      next == pc || next == Idle || next == YieldRel(Idle)
  {
    ElseChange(s, c, p, m, q);
  }

  lemma OwnClearedKept(s: State, c: nat, p: nat, m: Move, j: nat)
    requires Step(s, c, p, m) && j < NPROC
    ensures ClearedOk(Perform(s, c, p, m), p, j)
  {
    if j < Cleared(m.self.pc) {
      Here(s, c, p);
      IntoCleared(s, p, m, j);
      assert ClearedOk(s, p, j) && ParentOk(s, p);
      ParentChange(s, c, p, m, j);
      if m.other.Set? { Touches(s, p, m); }
    }
  }

  lemma ElseClearedKept(s: State, c: nat, p: nat, m: Move, q: nat, j: nat)
    requires Step(s, c, p, m) && q < NPROC && j < NPROC && q != p
    ensures ClearedOk(Perform(s, c, p, m), q, j)
  {
    ElseBusy(s, c, p, m, q);
    if j < Cleared(s.procs[q].pc) { NoNewChild(s, c, p, m, q, j); }
  }

  lemma NoNewChild(s: State, c: nat, p: nat, m: Move, q: nat, j: nat)
    requires Step(s, c, p, m) && q < NPROC && j < NPROC && q != p && j < Cleared(s.procs[q].pc)
    ensures Perform(s, c, p, m).procs[j].parent != Some(q)
  {
    ParentChange(s, c, p, m, j);
    assert ClearedOk(s, q, j) && ProcOk(s, q);
  }

  /** While j holds wait_lock, nobody else changes a parent. */
  lemma ParentsStill(s: State, c: nat, p: nat, m: Move, j: nat, i: nat)
    requires Step(s, c, p, m) && j < NPROC && j != p && CondLock(s.procs[j].pc) == Some(WaitLk) && i < NPROC
    ensures var x, y := s.procs[i], Perform(s, c, p, m).procs[i];
      y.parent == x.parent || (s.procs[p].pc == ForkInit(i) && y.parent == None)
  {
    ParentChange(s, c, p, m, i);
    NotBoth(s, p, j);
  }

  lemma NotBoth(s: State, p: nat, j: nat)
    requires Core(s) && p < NPROC && j < NPROC && j != p && CondLock(s.procs[j].pc) == Some(WaitLk)
    ensures !s.procs[p].pc.ForkParent? && !s.procs[p].pc.Reparent? && !s.procs[p].pc.WaitCheck?
  {
    if CondLock(s.procs[p].pc) == Some(WaitLk) { CondExclusive(s, p, j); }
  }

  lemma IntoExit(s: State, p: nat, m: Move)
    requires p < NPROC && PcWf(p, s.procs[p].pc) && May(s, p, m)
    requires Leaves(m.self.pc)
    ensures var pc, next := s.procs[p].pc, m.self.pc;
      || (IsWake(pc) && pc.ret.ExitLock? && if IsWake(next) then pc.chan == next.chan
          else Passed(pc) >= NPROC && next == pc.ret)
      || (pc.ExitLock? && next.ExitSet?)
      || (pc.Reparent? && IsWake(next) && (s.procs[p].parent.Some? ==> next.chan == ProcChan(s.procs[p].parent.value)))
  {
    StepPrev(s, p, m);
    var pc, next := s.procs[p].pc, m.self.pc;
    if IsWake(next) { PrevIntoExitWake(p, pc, next); } else { PrevIntoCleared(p, pc, next); }
  }

  lemma OwnExitWakeKept(s: State, c: nat, p: nat, m: Move)
    requires Step(s, c, p, m)
    ensures ExitWakeOk(Perform(s, c, p, m), p)
  {
    var s' := Perform(s, c, p, m);
    if Leaves(m.self.pc) {
      Here(s, c, p);
      SelfKeeps(s, p, m);
      IntoExit(s, p, m);
      assert ExitWakeOk(s, p) && ParentOk(s, p);
      if m.self.parent.Some? && (m.self.pc.ExitLock? || m.self.pc.ExitSet?) && Waits(s', m.self.parent.value) {
        var q := m.self.parent.value;
        assert WakeOkAt(s, p, q);
        ElseWaiting(s, c, p, m, q, ProcChan(q), WaitLk);
      }
    }
  }

  lemma ParentStaysAwake(s: State, c: nat, p: nat, m: Move, j: nat, q: nat)
    requires Step(s, c, p, m) && j < NPROC && j != p && CondLock(s.procs[j].pc) == Some(WaitLk)
    requires q < NPROC && !Waits(s, q)
    ensures !Waits(Perform(s, c, p, m), q)
  {
    if Waits(Perform(s, c, p, m), q) {
      WaitingFrom(s, c, p, m, q, ProcChan(q), WaitLk);
      CondExclusive(s, j, p);
    }
  }

  lemma LeaverState(s: State, j: nat)
    requires Core(s) && j < NPROC && Leaves(s.procs[j].pc)
    ensures s.procs[j].state == RUNNING && CondLock(s.procs[j].pc) == Some(WaitLk)
  {
    assert ProcOk(s, j);
  }

  lemma ElseExitParent(s: State, c: nat, p: nat, m: Move, j: nat)
    requires Step(s, c, p, m) && j < NPROC && j != p && Leaves(Perform(s, c, p, m).procs[j].pc)
    ensures s.procs[j].pc == Perform(s, c, p, m).procs[j].pc && s.procs[j].parent == Perform(s, c, p, m).procs[j].parent
  {
    ElseBusy(s, c, p, m, j);
    LeaverState(s, j);
    ParentsStill(s, c, p, m, j, j);
    assert ForkerOk(s, p);
  }

  lemma ElseExitWakeKept(s: State, c: nat, p: nat, m: Move, j: nat)
    requires Step(s, c, p, m) && j < NPROC && j != p
    ensures ExitWakeOk(Perform(s, c, p, m), j)
  {
    if Leaves(Perform(s, c, p, m).procs[j].pc) {
      ElseExitParent(s, c, p, m, j);
      ExitWakeStays(s, c, p, m, j);
    }
  }

  lemma ExitWakeStays(s: State, c: nat, p: nat, m: Move, j: nat)
    requires Step(s, c, p, m) && j < NPROC && j != p && Leaves(s.procs[j].pc)
    requires var y := Perform(s, c, p, m).procs[j]; y.pc == s.procs[j].pc && y.parent == s.procs[j].parent
    ensures ExitWakeOk(Perform(s, c, p, m), j)
  {
    assert ExitWakeOk(s, j);
    if !IsWake(s.procs[j].pc) && s.procs[j].parent.Some? && s.procs[j].parent.value < NPROC {
      ParentStaysAwake(s, c, p, m, j, s.procs[j].parent.value);
    }
  }
}
