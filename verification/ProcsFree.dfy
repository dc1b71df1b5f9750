/** Free entries of the process table are blank, except that kkill(0) marks one of them as killed, so that the next
    process there is born killed (kkill, allocproc and freeproc in kernel/proc.c). */
module ProcsFree {
  import opened Common
  import opened Procs
  import opened ProcsInv
  import opened ProcsCore
  import opened ProcsSleep
  import opened ProcsFamilyInv
  import opened ProcsFamily
  import opened ProcsRunsInv
  import opened ProcsRuns
  import opened ProcsGuard

  /** A free entry is as freeproc leaves it, but for its killed flag. */
  ghost predicate FreeOk(s: State, j: nat)
    requires j < NPROC
  {
    var x := s.procs[j];
    x.state == UNUSED ==> x == BLANK.(killed := x.killed)
  }

  /** How an entry that is then free may change: not at all, by freeproc, or by kkill. */
  predicate Freeing(x: Proc, y: Proc, pc: Pc, j: nat) {
    || y == x || (x.state != UNUSED && y == BLANK)
    || (x.state == UNUSED && y == x.(killed := true) && pc.KillSet? && pc.i == j && x.pid == pc.pid)
  }

  lemma FreeTouch(s: State, p: nat, m: Move, j: nat)
    requires p < NPROC && j < NPROC && j != p && ForkerOk(s, p) && ParentOk(s, j) && KillsPid(s, p, m, j)
    requires m.other.Set? && m.other.i == j && m.other.x.state == UNUSED && Touch(s, p, m, j)
    ensures Freeing(s.procs[j], m.other.x, s.procs[p].pc, j)
  {}

  predicate KillsPid(s: State, p: nat, m: Move, j: nat)
    requires p < NPROC && j < NPROC
  {
    s.procs[p].pc.KillSet? && s.procs[p].pc.i == j && m.other.Set? ==>
      s.procs[j].pid == s.procs[p].pc.pid && m.self.pc == KillRel(j, s.procs[p].pc.pid, true)
  }

  lemma KillSets(s: State, p: nat, m: Move, j: nat)
    requires p < NPROC && j < NPROC && May(s, p, m)
    ensures KillsPid(s, p, m, j)
  {}

  lemma FreeChange(s: State, c: nat, p: nat, m: Move, j: nat)
    requires Step(s, c, p, m) && j < NPROC && Perform(s, c, p, m).procs[j].state == UNUSED
    ensures j != p && Freeing(s.procs[j], Perform(s, c, p, m).procs[j], s.procs[p].pc, j)
  {
    MoverState(s, c, p);
    if j == p {
      SelfState(s, p, m);
    } else {
      ElseChange(s, c, p, m, j);
      KillSets(s, p, m, j);
      assert ForkerOk(s, p) && ParentOk(s, j);
      if s.procs[j] != Perform(s, c, p, m).procs[j] { FreeTouch(s, p, m, j); }
    }
  }

  lemma FreeKept(s: State, s': State, c: nat, j: nat)
    requires Inv(s) && Next(s, s', c) && j < NPROC && FreeOk(s, j)
    ensures FreeOk(s', j)
  {
    match s.cpus[c].cur
    case None =>
      SchedEffect(s, s', c);
      assert Redispatched(s.procs[j], s'.procs[j]) && ProcOk(s, j);
      SchedCore(s, s', c);
      assert ProcOk(s', j);
    case Some(p) =>
      var m :| ProcStep(s, s', c, p, m);
      MoveStep(s, c, p, m);
      if s'.procs[j].state == UNUSED { FreeChange(s, c, p, m, j); }
  }

  lemma {:induction false} FreeIsBlank(run: seq<State>, i: nat, j: nat)
    requires IsRun(run) && i < |run| && j < NPROC
    ensures FreeOk(run[i], j)
  {
    if i > 0 {
      FreeIsBlank(run, i - 1, j);
      EveryRunKeepsInv(run, i - 1);
      assert StepAt(run, i - 1);
      var c: nat :| Next(run[i - 1], run[i], c);
      FreeKept(run[i - 1], run[i], c, j);
    }
  }

  /** What kfork finds in a free entry becomes a process that is blank but for its pid, and for the killed flag. */
  lemma NewProcess(run: seq<State>, i: nat, c: nat, p: nat, m: Move)
    requires IsRun(run) && i < |run| && Runs(run[i], c, p) && May(run[i], p, m) && m.note.Allocates?
    ensures m.other.Set? && m.other.i < NPROC && run[i].procs[m.other.i].state == UNUSED
    ensures m.other.x == BLANK.(killed := run[i].procs[m.other.i].killed, state := USED, pid := run[i].nextpid,
                                pc := YieldRel(Idle), forker := Some(p))
  {
    AllocMove(run[i], p, m);
    FreeIsBlank(run, i, m.other.i);
  }

  lemma AllocMove(s: State, p: nat, m: Move)
    requires p < NPROC && May(s, p, m) && m.note.Allocates?
    ensures m.other.Set? && m.other.i < NPROC && s.procs[m.other.i].state == UNUSED
    ensures m.other.x == s.procs[m.other.i].(state := USED, pid := s.nextpid, pc := YieldRel(Idle), forker := Some(p))
  {
    Allocating(s, p, m);
  }

  lemma Allocating(s: State, p: nat, m: Move)
    requires p < NPROC && May(s, p, m) && m.note.Allocates?
    ensures ForkMove(s, p, m)
  {}

  // ----- born killed -----

  /** A kkill(0) has stopped at entry j. */
  ghost predicate Hits(s: State, j: nat) { exists p: nat :: p < NPROC && s.procs[p].pc == KillRel(j, 0, true) }

  /** That was so at time t, and the entry has been free from then to time i. */
  ghost predicate HitFree(run: seq<State>, t: nat, i: nat, j: nat)
    requires i < |run| && j < NPROC
  {
    t <= i && Hits(run[t], j) && forall u: nat :: t <= u <= i ==> run[u].procs[j].state == UNUSED
  }

  lemma HitIsKilled(run: seq<State>, i: nat, j: nat)
    requires IsRun(run) && i < |run| && j < NPROC && Hits(run[i], j)
    ensures run[i].procs[j].killed
  {
    EveryRunReads(run, i);
    var p: nat :| p < NPROC && run[i].procs[p].pc == KillRel(j, 0, true);
    assert Reads(run[i], p);
  }

  /** How the killed flag of a free entry changes in a step. */
  lemma FlagStep(s: State, s': State, c: nat, j: nat)
    requires Inv(s) && Next(s, s', c) && j < NPROC && FreeOk(s, j) && s'.procs[j].state == UNUSED
    ensures s.procs[j].state == UNUSED ==> (s.procs[j].killed ==> s'.procs[j].killed)
    ensures s'.procs[j].killed ==> Hits(s', j) || (s.procs[j].state == UNUSED && s.procs[j].killed)
  {
    match s.cpus[c].cur
    case None =>
      SchedEffect(s, s', c);
      assert Redispatched(s.procs[j], s'.procs[j]);
    case Some(p) =>
      var m :| ProcStep(s, s', c, p, m);
      MoveStep(s, c, p, m);
      FreeChange(s, c, p, m, j);
      KillSets(s, p, m, j);
      if s'.procs[j] != s.procs[j] && s.procs[j].state == UNUSED { assert s'.procs[p].pc == KillRel(j, 0, true); }
  }

  ghost predicate WasHit(run: seq<State>, i: nat, j: nat)
    requires i < |run| && j < NPROC
  {
    exists t: nat :: HitFree(run, t, i, j)
  }

  lemma HitBefore(run: seq<State>, k: nat, i: nat, j: nat)
    requires i == k + 1 < |run| && j < NPROC && run[i].procs[j].state == UNUSED && !Hits(run[i], j)
    ensures WasHit(run, i, j) <==> run[k].procs[j].state == UNUSED && WasHit(run, k, j)
  {
    if WasHit(run, i, j) {
      var t: nat :| HitFree(run, t, i, j);
      assert t != i;
      assert HitFree(run, t, k, j);
    }
    if run[k].procs[j].state == UNUSED && WasHit(run, k, j) {
      var t: nat :| HitFree(run, t, k, j);
      assert HitFree(run, t, i, j);
    }
  }

  /** A free entry is marked as killed exactly if a kkill(0) has stopped at it since it became free. */
  lemma {:induction false} BornKilled(run: seq<State>, i: nat, j: nat)
    requires IsRun(run) && i < |run| && j < NPROC && run[i].procs[j].state == UNUSED
    ensures run[i].procs[j].killed <==> WasHit(run, i, j)
  {
    if Hits(run[i], j) {
      HitIsKilled(run, i, j);
      assert HitFree(run, i, i, j);
    } else if i > 0 {
      var k: nat := i - 1;
      if run[k].procs[j].state == UNUSED { BornKilled(run, k, j); }
      FlagAt(run, k, j);
      HitBefore(run, k, i, j);
    }
  }

  lemma FlagAt(run: seq<State>, k: nat, j: nat)
    requires IsRun(run) && k + 1 < |run| && j < NPROC && run[k + 1].procs[j].state == UNUSED && !Hits(run[k + 1], j)
    ensures run[k + 1].procs[j].killed <==> run[k].procs[j].state == UNUSED && run[k].procs[j].killed
  {
    assert StepAt(run, k);
    var c: nat :| Next(run[k], run[k + 1], c);
    EveryRunKeepsInv(run, k);
    FreeIsBlank(run, k, j);
    FlagStep(run[k], run[k + 1], c, j);
  }

  // ----- a run in which that happens -----

  lemma RunMore(run: seq<State>, s': State)
    requires IsRun(run) && Steps(run[|run| - 1], s')
    ensures IsRun(run + [s'])
  {
    var more := run + [s'];
    forall i: nat | i + 1 < |more| ensures StepAt(more, i) {
      if i + 1 < |run| { assert StepAt(run, i); }
    }
  }

  /** CPU 0 executes initproc at pc, holding these locks, and entry 1 is blank. */
  ghost predicate InitAt(run: seq<State>, pc: Pc, held: map<Lock, nat>) {
    && IsRun(run)
    && var s := run[|run| - 1];
       && s.procs[0] == Proc(RUNNING, None, false, None, 1, 0, pc, Some(0), None, {}) && s.procs[1] == BLANK
       && s.cpus[0] == Cpu(Some(0), SchedBack(0), Some(0)) && s.held == held
  }

  /** initproc is dispatched. */
  lemma Dispatch() returns (run: seq<State>)
    ensures InitAt(run, YieldRel(Idle), map[PLock(0) := 0])
  {
    var s0: State := Boot();
    var s1: State := s0.(held := map[PLock(0) := 0], cpus := s0.cpus[0 := Cpu(None, SchedCheck(0), None)]);
    var s2: State := s1.(procs := s1.procs[0 := s1.procs[0].(state := RUNNING, on := Some(0))],
                         cpus := s1.cpus[0 := Cpu(Some(0), SchedRun(0), None)]);
    var s3: State := s2.(cpus := s2.cpus[0 := Cpu(Some(0), SchedBack(0), Some(0))]);
    run := [s0];
    assert Next(s0, s1, 0) && Next(s1, s2, 0) && Next(s2, s3, 0);
    RunMore(run, s1);
    RunMore(run + [s1], s2);
    RunMore(run + [s1] + [s2], s3);
    run := run + [s1] + [s2] + [s3];
  }

  /** initproc makes a move of its own. */
  lemma Goes(run: seq<State>, pc: Pc, held: map<Lock, nat>, m: Move) returns (more: seq<State>)
    requires InitAt(run, pc, held) && May(run[|run| - 1], 0, m) && Unblocked(run[|run| - 1], m)
    ensures |more| == |run| + 1 && IsRun(more) && more[|run|] == Perform(run[|run| - 1], 0, 0, m)
  {
    var s := run[|run| - 1];
    assert ProcStep(s, Perform(s, 0, 0, m), 0, 0, m);
    assert Next(s, Perform(s, 0, 0, m), 0);
    RunMore(run, Perform(s, 0, 0, m));
    more := run + [Perform(s, 0, 0, m)];
  }

  lemma Releases(run: seq<State>, pc: Pc, l: Lock, next: Pc) returns (more: seq<State>)
    requires InitAt(run, pc, map[l := 0]) && May(run[|run| - 1], 0, Giving(run[|run| - 1].procs[0], l, next))
    ensures InitAt(more, next, map[])
  {
    more := Goes(run, pc, map[l := 0], Giving(run[|run| - 1].procs[0], l, next));
  }

  lemma Acquires(run: seq<State>, pc: Pc, l: Lock, next: Pc) returns (more: seq<State>)
    requires InitAt(run, pc, map[]) && May(run[|run| - 1], 0, Taking(run[|run| - 1].procs[0], l, next))
    ensures InitAt(more, next, map[l := 0])
  {
    more := Goes(run, pc, map[], Taking(run[|run| - 1].procs[0], l, next));
  }

  lemma Jumps(run: seq<State>, pc: Pc, held: map<Lock, nat>, next: Pc) returns (more: seq<State>)
    requires InitAt(run, pc, held) && May(run[|run| - 1], 0, Jump(run[|run| - 1].procs[0], next))
    ensures InitAt(more, next, held)
  {
    more := Goes(run, pc, held, Jump(run[|run| - 1].procs[0], next));
  }

  lemma CallsKill() returns (run: seq<State>)
    ensures InitAt(run, KillAcq(0, 0), map[])
  {
    run := Dispatch();
    run := Releases(run, YieldRel(Idle), PLock(0), Idle);
    run := Jumps(run, Idle, map[], KillAcq(0, 0));
  }

  lemma LooksAtItself() returns (run: seq<State>)
    ensures InitAt(run, KillRel(0, 0, false), map[PLock(0) := 0])
  {
    run := CallsKill();
    run := Acquires(run, KillAcq(0, 0), PLock(0), KillSet(0, 0));
    run := Jumps(run, KillSet(0, 0), map[PLock(0) := 0], KillRel(0, 0, false));
  }

  lemma LooksAtNext() returns (run: seq<State>)
    ensures InitAt(run, KillSet(1, 0), map[PLock(1) := 0])
  {
    run := LooksAtItself();
    run := Releases(run, KillRel(0, 0, false), PLock(0), KillAcq(1, 0));
    run := Acquires(run, KillAcq(1, 0), PLock(1), KillSet(1, 0));
  }

  /** initproc calls kkill(0), which passes its own entry and stops at the next, which is free. */
  lemma KillZero() returns (run: seq<State>)
    ensures IsRun(run) && var x := run[|run| - 1].procs[1]; x.state == UNUSED && x.killed
  {
    run := LooksAtNext();
    var x := run[|run| - 1].procs[0];
    run := Goes(run, KillSet(1, 0), map[PLock(1) := 0], Setting(x, 1, BLANK.(killed := true), KillRel(1, 0, true)));
  }
}
