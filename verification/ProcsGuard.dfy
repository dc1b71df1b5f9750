/** p->lock guards the fields of struct proc that it is said to guard, so what a process reads under the
    lock stays true until it lets go of it. */
module ProcsGuard {
  import opened Common
  import opened Procs
  import opened ProcsInv
  import opened ProcsMoves
  import opened ProcsCore
  import opened ProcsSleepInv
  import opened ProcsSleep
  import opened ProcsFamilyInv
  import opened ProcsFamily
  import opened ProcsRunsInv
  import opened ProcsRuns

  // ----- the lock discipline -----

  /** The fields that p->lock guards are the same. */
  predicate SameGuarded(x: Proc, y: Proc) {
    y.state == x.state && y.chan == x.chan && y.killed == x.killed && y.xstate == x.xstate && y.pid == x.pid
  }

  /** The code that process p executes is inside i's lock. */
  predicate Inside(s: State, p: nat, i: nat)
    requires p < NPROC
  {
    ProcLock(p, s.procs[p].pc) == Some(i)
  }

  lemma CallGuarded(s: State, p: nat, m: Move)
    requires p < NPROC && (ForkMove(s, p, m) || ExitMove(s, p, m) || WaitMove(s, p, m) || KillMove(s, p, m))
    ensures SameGuarded(s.procs[p], m.self) || Inside(s, p, p)
  {}

  lemma SelfGuarded(s: State, p: nat, m: Move)
    requires p < NPROC && May(s, p, m)
    ensures SameGuarded(s.procs[p], m.self) || Inside(s, p, p)
  {
    if ForkMove(s, p, m) || ExitMove(s, p, m) || WaitMove(s, p, m) || KillMove(s, p, m) { CallGuarded(s, p, m); }
  }

  lemma TouchGuarded(s: State, p: nat, m: Move, i: nat)
    requires p < NPROC && i < NPROC && m.other.Set? && m.other.i == i && Touch(s, p, m, i)
    ensures SameGuarded(s.procs[i], m.other.x) || Inside(s, p, i)
  {}

  lemma MoveGuarded(s: State, c: nat, p: nat, m: Move, i: nat)
    requires Moves(s, c, p, m) && i < NPROC
    ensures SameGuarded(s.procs[i], Perform(s, c, p, m).procs[i]) || Inside(s, p, i)
  {
    if i == p {
      SelfGuarded(s, p, m);
    } else {
      ElseChange(s, c, p, m, i);
      if s.procs[i] != Perform(s, c, p, m).procs[i] { TouchGuarded(s, p, m, i); }
    }
  }

  /** The parent of an entry changes only in code that holds wait_lock. */
  lemma MoveParent(s: State, c: nat, p: nat, m: Move, i: nat)
    requires Step(s, c, p, m) && i < NPROC
    ensures Perform(s, c, p, m).procs[i].parent == s.procs[i].parent || CondLock(s.procs[p].pc) == Some(WaitLk)
  {
    ParentChange(s, c, p, m, i);
    if s.procs[p].pc == ForkInit(i) {
      assert ForkerOk(s, p) && ChildOk(s, i);
      NoParentYet(s, p, i);
    }
  }

  lemma NoParentYet(s: State, p: nat, i: nat)
    requires p < NPROC && i < NPROC && s.procs[p].pc == ForkInit(i) && ForkerOk(s, p) && ChildOk(s, i)
    ensures s.procs[i].parent == None
  {}

  // ----- what a process has read -----

  /** What the code has found out about the entry whose lock it holds. */
  ghost predicate Reads(s: State, p: nat)
    requires p < NPROC
  {
    match s.procs[p].pc
    case WakeRel(ch, i, _) => i < NPROC ==> s.procs[i].state != SLEEPING || s.procs[i].chan != Some(ch)
    case ForkSkip(i) => i < NPROC ==> s.procs[i].state != UNUSED
    case WaitNext(i) => i < NPROC ==> s.procs[i].state != ZOMBIE
    case WaitKillRel(dead) => dead == s.procs[p].killed
    case KillRel(i, pid, found) =>
      i < NPROC ==> found == (s.procs[i].pid == pid) && (found ==> s.procs[i].killed && s.procs[i].state != SLEEPING)
    case _ => true
  }

  /** A process has a channel only between sched and its return from sleep. */
  ghost predicate ChanOk(s: State, p: nat)
    requires p < NPROC
  {
    s.procs[p].chan.Some? ==> s.procs[p].pc.SleepSwtch? || s.procs[p].pc.SleepTidy?
  }

  ghost predicate ReadInv(s: State) { forall p: nat :: p < NPROC ==> Reads(s, p) && ChanOk(s, p) }

  /** A program counter that Reads says something about. */
  predicate HasRead(pc: Pc) { pc.WakeRel? || pc.ForkSkip? || pc.WaitNext? || pc.WaitKillRel? || pc.KillRel? }

  /** The entry it says it about. */
  function ReadOf(p: nat, pc: Pc): (i: nat)
    requires HasRead(pc)
  {
    if pc.WaitKillRel? then p else pc.i
  }

  lemma PrevIntoRead(p: nat, pc: Pc, next: Pc)
    requires PcWf(p, pc) && Prev(p, pc, next) && HasRead(next)
    ensures pc == match next
      case WakeRel(ch, i, r) => WakeSet(ch, i, r)
      case ForkSkip(i) => ForkCheck(i)
      case WaitNext(i) => WaitCheck(i)
      case WaitKillRel(_) => WaitKillRead
      case KillRel(i, pid, _) => KillSet(i, pid)
  {}

  lemma OwnRead(s: State, c: nat, p: nat, m: Move)
    requires Moves(s, c, p, m)
    ensures Reads(Perform(s, c, p, m), p)
  {
    if HasRead(m.self.pc) {
      Here(s, c, p);
      StepPrev(s, p, m);
      PrevIntoRead(p, s.procs[p].pc, m.self.pc);
      ReadKind(s, p, m);
      ReadMove(s, c, p, m);
    }
  }

  lemma ReadMove(s: State, c: nat, p: nat, m: Move)
    requires p < NPROC && c < NCPU && Unblocked(s, m) && Active(s.procs[p])
    requires AtRead(s.procs[p].pc) && ReadStep(s, p, m)
    ensures Reads(Perform(s, c, p, m), p)
  {
    var pc := s.procs[p].pc;
    if pc.WakeSet? { WakeReads(s, c, p, m); }
    else if pc.ForkCheck? { ForkReads(s, c, p, m); }
    else if pc.KillSet? { KillReads(s, c, p, m); }
    else { WaitReads(s, c, p, m); }
  }

  predicate AtRead(pc: Pc) { pc.WakeSet? || pc.ForkCheck? || pc.WaitCheck? || pc.WaitKillRead? || pc.KillSet? }

  predicate ReadStep(s: State, p: nat, m: Move)
    requires p < NPROC
  {
    var pc := s.procs[p].pc;
    if pc.WakeSet? then WakeMove(s, p, m)
    else if pc.ForkCheck? then ForkMove(s, p, m)
    else if pc.KillSet? then KillMove(s, p, m)
    else WaitMove(s, p, m)
  }

  lemma ReadKind(s: State, p: nat, m: Move)
    requires p < NPROC && May(s, p, m) && AtRead(s.procs[p].pc)
    ensures ReadStep(s, p, m)
  {}

  lemma WakeReads(s: State, c: nat, p: nat, m: Move)
    requires p < NPROC && c < NCPU && Unblocked(s, m) && WakeMove(s, p, m) && s.procs[p].pc.WakeSet?
    requires Active(s.procs[p])
    ensures Reads(Perform(s, c, p, m), p)
  {}

  lemma ForkReads(s: State, c: nat, p: nat, m: Move)
    requires p < NPROC && c < NCPU && Unblocked(s, m) && ForkMove(s, p, m) && s.procs[p].pc.ForkCheck?
    requires Active(s.procs[p])
    ensures Reads(Perform(s, c, p, m), p)
  {}

  lemma WaitReads(s: State, c: nat, p: nat, m: Move)
    requires p < NPROC && c < NCPU && Unblocked(s, m) && WaitMove(s, p, m)
    requires Active(s.procs[p]) && (s.procs[p].pc.WaitCheck? || s.procs[p].pc.WaitKillRead?)
    ensures Reads(Perform(s, c, p, m), p)
  {}

  lemma KillReads(s: State, c: nat, p: nat, m: Move)
    requires p < NPROC && c < NCPU && Unblocked(s, m) && KillMove(s, p, m) && s.procs[p].pc.KillSet?
    requires Active(s.procs[p])
    ensures Reads(Perform(s, c, p, m), p)
  {}

  /** What q has read stays true while others move. */
  lemma ElseRead(s: State, c: nat, p: nat, m: Move, q: nat)
    requires Moves(s, c, p, m) && q < NPROC && q != p && Reads(s, q)
    ensures Reads(Perform(s, c, p, m), q)
  {
    var s' := Perform(s, c, p, m);
    if HasRead(s'.procs[q].pc) {
      ElseBusy(s, c, p, m, q);
      var i := ReadOf(q, s.procs[q].pc);
      NotInside(s, c, p, q, i);
      MoveGuarded(s, c, p, m, i);
    }
  }

  /** While q is inside i's lock, the process that another CPU runs is not. */
  lemma NotInside(s: State, c: nat, p: nat, q: nat, i: nat)
    requires Core(s) && Runs(s, c, p) && q < NPROC && q != p && HasRead(s.procs[q].pc) && i == ReadOf(q, s.procs[q].pc)
    ensures i < NPROC && !Inside(s, p, i)
  {
    var c' := ReaderRuns(s, q);
    assert LockOk(s, c, PLock(i)) && LockOk(s, c', PLock(i)) && CpuOk(s, c) && CpuOk(s, c');
  }

  lemma ReaderRuns(s: State, q: nat) returns (c: nat)
    requires Core(s) && q < NPROC && HasRead(s.procs[q].pc)
    ensures Runs(s, c, q) && ReadOf(q, s.procs[q].pc) < NPROC
  {
    assert ProcOk(s, q);
    c := s.procs[q].on.value;
    assert CpuOk(s, c);
  }

  lemma OwnChan(s: State, c: nat, p: nat, m: Move)
    requires Moves(s, c, p, m) && ChanOk(s, p)
    ensures ChanOk(Perform(s, c, p, m), p)
  {
    if s.procs[p].pc.SleepSet? || s.procs[p].pc.SleepSwtch? || s.procs[p].pc.SleepTidy? {
      SleepChan(s, p, m);
    } else {
      SelfChan(s, p, m);
    }
  }

  lemma SleepChan(s: State, p: nat, m: Move)
    requires p < NPROC && May(s, p, m)
    requires s.procs[p].pc.SleepSet? || s.procs[p].pc.SleepSwtch? || s.procs[p].pc.SleepTidy?
    ensures m.self.chan == None || m.self.pc.SleepSwtch? || m.self.pc.SleepTidy?
  {}

  lemma SelfChan(s: State, p: nat, m: Move)
    requires p < NPROC && May(s, p, m)
    requires !(s.procs[p].pc.SleepSet? || s.procs[p].pc.SleepSwtch? || s.procs[p].pc.SleepTidy?)
    ensures m.self.chan == s.procs[p].chan
  {
    if ForkMove(s, p, m) || ExitMove(s, p, m) || WaitMove(s, p, m) || KillMove(s, p, m) { CallChan(s, p, m); }
  }

  lemma CallChan(s: State, p: nat, m: Move)
    requires p < NPROC && (ForkMove(s, p, m) || ExitMove(s, p, m) || WaitMove(s, p, m) || KillMove(s, p, m))
    ensures m.self.chan == s.procs[p].chan
  {}

  lemma ElseChan(s: State, c: nat, p: nat, m: Move, q: nat)
    requires Moves(s, c, p, m) && q < NPROC && q != p && ChanOk(s, q)
    ensures ChanOk(Perform(s, c, p, m), q)
  {
    ElseChange(s, c, p, m, q);
    ElsePc(s, c, p, m, q);
    assert ProcOk(s, q);
  }

  lemma RescheduledReads(s: State, s': State)
    requires Rescheduled(s, s') && ReadInv(s)
    ensures ReadInv(s')
  {
    forall p: nat | p < NPROC ensures Reads(s', p) && ChanOk(s', p) {
      assert Reads(s, p) && ChanOk(s, p) && Redispatched(s.procs[p], s'.procs[p]);
      var pc := s.procs[p].pc;
      if HasRead(pc) && ReadOf(p, pc) < NPROC { assert Redispatched(s.procs[ReadOf(p, pc)], s'.procs[ReadOf(p, pc)]); }
    }
  }

  lemma NextKeepsReads(s: State, s': State, c: nat)
    requires Inv(s) && ReadInv(s) && Next(s, s', c)
    ensures ReadInv(s')
  {
    match s.cpus[c].cur
    case None =>
      SchedEffect(s, s', c);
      RescheduledReads(s, s');
    case Some(p) =>
      var m :| ProcStep(s, s', c, p, m);
      MoveStep(s, c, p, m);
      forall q: nat | q < NPROC ensures Reads(s', q) && ChanOk(s', q) {
        assert Reads(s, q) && ChanOk(s, q);
        if q == p {
          OwnRead(s, c, p, m);
          OwnChan(s, c, p, m);
        } else {
          ElseRead(s, c, p, m, q);
          ElseChan(s, c, p, m, q);
        }
      }
  }

  lemma {:induction false} EveryRunReads(run: seq<State>, i: nat)
    requires IsRun(run) && i < |run|
    ensures ReadInv(run[i])
  {
    if i == 0 {
      forall q: nat | q < NPROC ensures Reads(run[0], q) && ChanOk(run[0], q) { BootAt(run[0], q); }
    } else {
      EveryRunReads(run, i - 1);
      EveryRunKeepsInv(run, i - 1);
      assert StepAt(run, i - 1);
      var c: nat :| Next(run[i - 1], run[i], c);
      NextKeepsReads(run[i - 1], run[i], c);
    }
  }

  // ----- searches through the table -----

  /** The entry at which p is in kkill(pid), or in allocproc's search if pid is None. */
  function Place(pc: Pc, pid: Option<nat>): (i: Option<nat>) {
    match pc
    case KillAcq(i, k) => if pid == Some(k) then Some(i) else None
    case KillSet(i, k) => if pid == Some(k) then Some(i) else None
    case KillRel(i, k, _) => if pid == Some(k) then Some(i) else None
    case ForkScan(i) => if pid == None then Some(i) else None
    case ForkCheck(i) => if pid == None then Some(i) else None
    case ForkSkip(i) => if pid == None then Some(i) else None
    case _ => None
  }

  /** What it is looking for. */
  predicate Sought(x: Proc, pid: Option<nat>) { if pid.Some? then x.pid == pid.value else x.state == UNUSED }

  /** The search is at entry j or before it. */
  predicate Before(pc: Pc, pid: Option<nat>, j: nat) { Place(Base(pc), pid).Some? && Place(Base(pc), pid).value <= j }

  /** The entry has been looked at in vain. */
  predicate InVain(pc: Pc) { pc.ForkSkip? || (pc.KillRel? && !pc.found) }

  lemma SearchForks(s: State, p: nat, m: Move, pid: Option<nat>)
    requires p < NPROC && ForkMove(s, p, m) && Place(s.procs[p].pc, pid).Some? && Place(Base(m.self.pc), pid).Some?
    ensures var i, i' := Place(s.procs[p].pc, pid).value, Place(Base(m.self.pc), pid).value;
      i' == i || (i' == i + 1 && InVain(s.procs[p].pc))
  {}

  lemma SearchKills(s: State, p: nat, m: Move, pid: Option<nat>)
    requires p < NPROC && KillMove(s, p, m) && Place(s.procs[p].pc, pid).Some? && Place(Base(m.self.pc), pid).Some?
    ensures var i, i' := Place(s.procs[p].pc, pid).value, Place(Base(m.self.pc), pid).value;
      i' == i || (i' == i + 1 && InVain(s.procs[p].pc))
  {}

  /** A search goes on to the next entry only after it has looked at this one in vain. */
  lemma SearchStep(s: State, p: nat, m: Move, pid: Option<nat>, j: nat)
    requires p < NPROC && PcWf(p, s.procs[p].pc) && May(s, p, m) && Before(s.procs[p].pc, pid, j)
    requires Place(Base(m.self.pc), pid).Some?
    ensures Before(m.self.pc, pid, j) || (InVain(s.procs[p].pc) && s.procs[p].pc.i == j)
  {
    var pc, next := s.procs[p].pc, m.self.pc;
    if ForkMove(s, p, m) { SearchForks(s, p, m, pid); }
    else if KillMove(s, p, m) { SearchKills(s, p, m, pid); }
    else { SearchYields(s, p, m, pid); }
  }

  lemma SearchYields(s: State, p: nat, m: Move, pid: Option<nat>)
    requires p < NPROC && PcWf(p, s.procs[p].pc) && May(s, p, m) && !ForkMove(s, p, m) && !KillMove(s, p, m)
    requires Place(Base(s.procs[p].pc), pid).Some? && Place(Base(m.self.pc), pid).Some?
    ensures Base(m.self.pc) == Base(s.procs[p].pc)
  {}

  /** A search does not pass an entry that holds what it looks for. */
  lemma SearchStays(s: State, s': State, c: nat, p: nat, pid: Option<nat>, j: nat)
    requires Inv(s) && ReadInv(s) && Next(s, s', c) && p < NPROC && j < NPROC && Sought(s.procs[j], pid)
    requires Before(s.procs[p].pc, pid, j) && Place(Base(s'.procs[p].pc), pid).Some?
    ensures Before(s'.procs[p].pc, pid, j)
  {
    match s.cpus[c].cur
    case None =>
      SchedEffect(s, s', c);
      assert Redispatched(s.procs[p], s'.procs[p]);
    case Some(r) =>
      var m :| ProcStep(s, s', c, r, m);
      MoveStep(s, c, r, m);
      if r == p {
        Here(s, c, p);
        SearchStep(s, p, m, pid, j);
        assert Reads(s, p);
        NotInVain(s, p, pid, j);
      } else {
        ElseBusy(s, c, r, m, p);
      }
  }

  lemma NotInVain(s: State, p: nat, pid: Option<nat>, j: nat)
    requires p < NPROC && j < NPROC && Reads(s, p) && Sought(s.procs[j], pid) && Place(Base(s.procs[p].pc), pid).Some?
    ensures !(InVain(s.procs[p].pc) && s.procs[p].pc.i == j)
  {}

  ghost predicate Seeks(s: State, p: nat, pid: Option<nat>, j: nat)
    requires p < NPROC && j < NPROC
  {
    Sought(s.procs[j], pid) && Place(Base(s.procs[p].pc), pid).Some?
  }

  lemma StepMisses(run: seq<State>, t: nat, p: nat, pid: Option<nat>, j: nat)
    requires IsRun(run) && t + 1 < |run| && p < NPROC && j < NPROC
    requires Seeks(run[t], p, pid, j) && Seeks(run[t + 1], p, pid, j) && Before(run[t].procs[p].pc, pid, j)
    ensures Before(run[t + 1].procs[p].pc, pid, j)
  {
    EveryRunKeepsInv(run, t);
    EveryRunReads(run, t);
    assert StepAt(run, t);
    var c: nat :| Next(run[t], run[t + 1], c);
    SearchStays(run[t], run[t + 1], c, p, pid, j);
  }

  /** While entry j holds what p looks for, from the start of its search on, p does not get past it. So kkill(pid)
      does not miss a process with that pid, nor kfork a free entry. */
  lemma {:induction false} NothingMissed(run: seq<State>, a: nat, b: nat, p: nat, pid: Option<nat>, j: nat)
    requires IsRun(run) && a <= b < |run| && p < NPROC && j < NPROC
    requires forall t: nat :: a <= t <= b ==> Seeks(run[t], p, pid, j)
    requires Place(Base(run[a].procs[p].pc), pid) == Some(0)
    ensures Before(run[b].procs[p].pc, pid, j)
    decreases b
  {
    if a < b {
      NothingMissed(run, a, b - 1, p, pid, j);
      assert Seeks(run[b - 1], p, pid, j) && Seeks(run[b], p, pid, j);
      StepMisses(run, b - 1, p, pid, j);
    }
  }

  /** How a search ends: at the end of the table, or because it has found something. */
  predicate Found(pc: Pc, m: Move) { (pc.KillRel? && pc.found) || (pc.ForkCheck? && m.note.Allocates?) }

  lemma SearchEnds(s: State, p: nat, m: Move, pid: Option<nat>)
    requires p < NPROC && PcWf(p, s.procs[p].pc) && May(s, p, m)
    requires Place(Base(s.procs[p].pc), pid).Some? && Place(Base(m.self.pc), pid) == None
    ensures Found(s.procs[p].pc, m) || Place(Base(s.procs[p].pc), pid).value >= NPROC
  {
    if ForkMove(s, p, m) { ForkEnds(s, p, m, pid); }
    else if KillMove(s, p, m) { KillEnds(s, p, m, pid); }
    else { YieldsOn(s, p, m, pid); }
  }

  lemma ForkEnds(s: State, p: nat, m: Move, pid: Option<nat>)
    requires p < NPROC && ForkMove(s, p, m)
    requires Place(Base(s.procs[p].pc), pid).Some? && Place(Base(m.self.pc), pid) == None
    ensures Found(s.procs[p].pc, m) || Place(Base(s.procs[p].pc), pid).value >= NPROC
  {}

  lemma KillEnds(s: State, p: nat, m: Move, pid: Option<nat>)
    requires p < NPROC && KillMove(s, p, m)
    requires Place(Base(s.procs[p].pc), pid).Some? && Place(Base(m.self.pc), pid) == None
    ensures Found(s.procs[p].pc, m) || Place(Base(s.procs[p].pc), pid).value >= NPROC
  {}

  lemma YieldsOn(s: State, p: nat, m: Move, pid: Option<nat>)
    requires p < NPROC && PcWf(p, s.procs[p].pc) && May(s, p, m) && !ForkMove(s, p, m) && !KillMove(s, p, m)
    requires Place(Base(s.procs[p].pc), pid).Some?
    ensures Place(Base(m.self.pc), pid).Some?
  {}

  /** If some entry holds what p looks for from the start of its search to the end, the search succeeds: kkill has
      killed a process with that pid, which is not asleep, and allocproc takes an entry that was free. */
  lemma SearchSucceeds(run: seq<State>, a: nat, b: nat, c: nat, p: nat, m: Move, pid: Option<nat>, j: nat)
    requires IsRun(run) && a <= b < |run| && Runs(run[b], c, p) && May(run[b], p, m) && j < NPROC
    requires forall t: nat :: a <= t <= b ==> Seeks(run[t], p, pid, j)
    requires Place(Base(run[a].procs[p].pc), pid) == Some(0) && Place(Base(m.self.pc), pid) == None
    ensures var s, pc := run[b], run[b].procs[p].pc;
      && Place(pc, pid).Some? && Place(pc, pid).value < NPROC
      && var x := s.procs[Place(pc, pid).value];
         if pid.Some? then x.pid == pid.value && x.killed && x.state != SLEEPING
         else x.state == UNUSED && m.note.Allocates?
  {
    EveryRunKeepsInv(run, b);
    EveryRunReads(run, b);
    NothingMissed(run, a, b, p, pid, j);
    Here(run[b], c, p);
    SearchEnds(run[b], p, m, pid);
    assert Reads(run[b], p) && Seeks(run[b], p, pid, j);
    if pid == None { Takes(run[b], p, m); }
  }

  lemma Takes(s: State, p: nat, m: Move)
    requires p < NPROC && May(s, p, m) && s.procs[p].pc.ForkCheck? && m.note.Allocates?
    ensures s.procs[p].pc.i < NPROC && s.procs[s.procs[p].pc.i].state == UNUSED
  {}
}
