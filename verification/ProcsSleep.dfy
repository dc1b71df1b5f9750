/** sleep and wakeup lose no wakeups, over every interleaving. */
module ProcsSleepInv {
  import opened Common
  import opened Procs
  import opened ProcsInv

  /** How many table entries a wakeup has dealt with. */
  function Passed(pc: Pc): (n: nat)
    requires IsWake(pc)
  {
    if pc.WakeRel? then pc.i + 1 else pc.i
  }

  /** If q is in wakeup(chan) under a condition lock and is past entry p, then p
      is not waiting on chan under that lock. */
  ghost predicate WakeOkAt(s: State, q: nat, p: nat)
    requires q < NPROC && p < NPROC
  {
    var pc := s.procs[q].pc;
    IsWake(pc) && p < Passed(pc) && RetLock(pc.ret).Some? ==> !Waiting(s, p, pc.chan, RetLock(pc.ret).value)
  }

  ghost predicate WakeInv(s: State) {
    forall q: nat, p: nat :: q < NPROC && p < NPROC && q != p ==> WakeOkAt(s, q, p)
  }

  /** Process p makes move m on CPU c. */
  ghost predicate Moves(s: State, c: nat, p: nat, m: Move) {
    Core(s) && Runs(s, c, p) && May(s, p, m) && Unblocked(s, m) && Prepared(s, p)
  }

  /** q is about to give up condition lock lk inside sleep(chan, lk). */
  predicate Dozing(s: State, q: nat, chan: Chan, lk: Lk)
    requires q < NPROC
  {
    s.procs[q].pc.SleepRel? && s.procs[q].pc.chan == chan && s.procs[q].pc.lk == lk
  }

  /** q is in wakeup(chan) under lk and has yet to deal with entry p. */
  predicate WillWake(s: State, q: nat, p: nat, chan: Chan, lk: Lk)
    requires q < NPROC
  {
    var pc := s.procs[q].pc;
    IsWake(pc) && pc.chan == chan && RetLock(pc.ret) == Some(lk) && Passed(pc) <= p
  }
}

module ProcsSleep {
  import opened Common
  import opened Procs
  import opened ProcsInv
  import opened ProcsMoves
  import opened ProcsCore
  import opened ProcsSleepInv

  // ----- how processes other than the mover change -----

  /** A process inside the kernel's code is changed by others only in its parent
      and killed fields, and by being woken. */
  lemma ElseChange(s: State, c: nat, p: nat, m: Move, q: nat)
    requires Moves(s, c, p, m) && q < NPROC && q != p
    ensures var x, y := s.procs[q], Perform(s, c, p, m).procs[q];
      || y == x
      || (m.other.Set? && m.other.i == q && m.other.x == y && Touch(s, p, m, q))
  {
    if m.other.Set? { Touches(s, p, m); }
  }

  lemma ElsePc(s: State, c: nat, p: nat, m: Move, q: nat)
    requires Moves(s, c, p, m) && q < NPROC && q != p
    ensures var x, y := s.procs[q], Perform(s, c, p, m).procs[q];
      y.pc == x.pc || x.state == UNUSED || x.state == USED || x.state == ZOMBIE
  {
    ElseChange(s, c, p, m, q);
  }

  // ----- coming to wait -----

  lemma IntoDoze(p: nat, pc: Pc, next: Pc)
    requires PcWf(p, pc) && Prev(p, pc, next) && (next.SleepSet? || next.SleepSwtch? || next.SleepTidy?)
    ensures pc.SleepRel? || pc.SleepSet? || pc.SleepSwtch?
  {}

  /** The only step by which a process comes to wait is sleep's release of the
      condition lock. */
  lemma OwnWaiting(s: State, p: nat, m: Move, chan: Chan, lk: Lk)
    requires p < NPROC && PcWf(p, s.procs[p].pc) && Active(s.procs[p]) && SleepMove(s, p, m)
    requires m.self.pc.SleepSet? || ((m.self.pc.SleepSwtch? || m.self.pc.SleepTidy?) && m.self.state == SLEEPING)
    requires m.self.pc.chan == chan && m.self.pc.lk == lk
    ensures Waiting(s, p, chan, lk) || Dozing(s, p, chan, lk)
  {}

  lemma ElseWaiting(s: State, c: nat, p: nat, m: Move, q: nat, chan: Chan, lk: Lk)
    requires Moves(s, c, p, m) && q < NPROC && q != p && Waiting(Perform(s, c, p, m), q, chan, lk)
    ensures Waiting(s, q, chan, lk)
  {
    ElseChange(s, c, p, m, q);
  }

  lemma OwnWaitingFrom(s: State, c: nat, p: nat, m: Move, chan: Chan, lk: Lk)
    requires Moves(s, c, p, m) && Waiting(Perform(s, c, p, m), p, chan, lk)
    ensures Waiting(s, p, chan, lk) || Dozing(s, p, chan, lk)
  {
    Here(s, c, p);
    StepPrev(s, p, m);
    IntoDoze(p, s.procs[p].pc, m.self.pc);
    OwnWaiting(s, p, m, chan, lk);
  }

  lemma WaitingFrom(s: State, c: nat, p: nat, m: Move, q: nat, chan: Chan, lk: Lk)
    requires Moves(s, c, p, m) && q < NPROC && Waiting(Perform(s, c, p, m), q, chan, lk)
    ensures Waiting(s, q, chan, lk) || (q == p && Dozing(s, p, chan, lk))
  {
    if q == p {
      OwnWaitingFrom(s, c, p, m, chan, lk);
    } else {
      ElseWaiting(s, c, p, m, q, chan, lk);
    }
  }

  // ----- who holds a condition lock -----

  /** A process that holds a condition lock executes on some CPU. */
  lemma Executes(s: State, q: nat) returns (c: nat)
    requires Core(s) && q < NPROC && CondLock(s.procs[q].pc).Some?
    ensures Runs(s, c, q)
  {
    assert ProcOk(s, q);
    c := s.procs[q].on.value;
    assert CpuOk(s, c);
  }

  /** A condition lock has one holder. */
  lemma CondExclusive(s: State, q: nat, r: nat)
    requires Core(s) && q < NPROC && r < NPROC
    requires CondLock(s.procs[q].pc).Some? && CondLock(s.procs[q].pc) == CondLock(s.procs[r].pc)
    ensures q == r
  {
    var c := Executes(s, q);
    var c' := Executes(s, r);
    var l := CLock(CondLock(s.procs[q].pc).value);
    assert LockOk(s, c, l) && LockOk(s, c', l);
  }

  // ----- wakeup goes through the table -----

  lemma IntoWake(p: nat, pc: Pc, next: Pc)
    requires PcWf(p, pc) && Prev(p, pc, next) && IsWake(next)
    ensures
      || (next.WakeAcq? && next.i == 0)
      || (IsWake(pc) && pc.chan == next.chan && pc.ret == next.ret
          && (|| Passed(next) == Passed(pc)
              || (pc.WakeAcq? && pc.i == p && Passed(next) == p + 1)
              || (pc.WakeSet? && Passed(next) == pc.i + 1)))
  {}

  /** A process whose lock q holds is not itself inside sleep holding that lock. */
  lemma TargetNotFallingAsleep(s: State, c: nat, q: nat, i: nat)
    requires Core(s) && Runs(s, c, q) && i < NPROC && i != q && ProcLock(q, s.procs[q].pc) == Some(i)
    ensures !s.procs[i].pc.SleepSet? && !s.procs[i].pc.SleepSwtch?
  {
    assert ProcOk(s, i) && LockOk(s, c, PLock(i));
    assert s.procs[i].on.Some? ==> LockOk(s, s.procs[i].on.value, PLock(i)) && CpuOk(s, s.procs[i].on.value);
  }

  /** The entry that wakeup deals with is not waiting on the channel afterwards. */
  lemma WakeSetWakes(s: State, c: nat, p: nat, m: Move, lk: Lk)
    requires Moves(s, c, p, m) && s.procs[p].pc.WakeSet?
    ensures s.procs[p].pc.i < NPROC
    ensures !Waiting(Perform(s, c, p, m), s.procs[p].pc.i, s.procs[p].pc.chan, lk)
  {
    Here(s, c, p);
    var i := s.procs[p].pc.i;
    TargetNotFallingAsleep(s, c, p, i);
    if s.procs[i].state == SLEEPING { FoundAtRest(s, c, p, i); }
  }

  lemma OwnWakeOk(s: State, c: nat, p: nat, m: Move, q: nat)
    requires Moves(s, c, p, m) && WakeInv(s) && q < NPROC && q != p
    ensures WakeOkAt(Perform(s, c, p, m), p, q)
  {
    var pc, next := s.procs[p].pc, m.self.pc;
    if IsWake(next) && q < Passed(next) && RetLock(next.ret).Some? {
      var lk := RetLock(next.ret).value;
      Here(s, c, p);
      StepPrev(s, p, m);
      IntoWake(p, pc, next);
      if pc.WakeSet? && pc.i == q {
        WakeSetWakes(s, c, p, m, lk);
      } else {
        assert WakeOkAt(s, p, q);
        if Waiting(Perform(s, c, p, m), q, next.chan, lk) { ElseWaiting(s, c, p, m, q, next.chan, lk); }
      }
    }
  }

  lemma ElseWakeOk(s: State, c: nat, p: nat, m: Move, r: nat, q: nat)
    requires Moves(s, c, p, m) && WakeInv(s) && r < NPROC && r != p && q < NPROC && q != r
    ensures WakeOkAt(Perform(s, c, p, m), r, q)
  {
    var s' := Perform(s, c, p, m);
    var next := s'.procs[r].pc;
    if IsWake(next) && q < Passed(next) && RetLock(next.ret).Some? {
      var lk := RetLock(next.ret).value;
      ElseChange(s, c, p, m, r);
      assert WakeOkAt(s, r, q);
      if Waiting(s', q, next.chan, lk) {
        WaitingFrom(s, c, p, m, q, next.chan, lk);
        CondExclusive(s, r, q);
      }
    }
  }

  lemma WakeKept(s: State, c: nat, p: nat, m: Move)
    requires Moves(s, c, p, m) && WakeInv(s)
    ensures WakeInv(Perform(s, c, p, m))
  {
    forall r: nat, q: nat | r < NPROC && q < NPROC && r != q ensures WakeOkAt(Perform(s, c, p, m), r, q) {
      if r == p { OwnWakeOk(s, c, p, m, q); } else { ElseWakeOk(s, c, p, m, r, q); }
    }
  }

  /** A wakeup that has yet to reach q either keeps going or wakes it. */
  lemma WakerStays(s: State, c: nat, p: nat, m: Move, r: nat, q: nat, chan: Chan, lk: Lk)
    requires Moves(s, c, p, m) && r < NPROC && q < NPROC && q != r && WillWake(s, r, q, chan, lk)
    requires Waiting(Perform(s, c, p, m), q, chan, lk)
    ensures WillWake(Perform(s, c, p, m), r, q, chan, lk)
  {
    var pc := s.procs[r].pc;
    if r != p {
      ElsePc(s, c, p, m, r);
      assert ProcOk(s, r);
    } else {
      Here(s, c, p);
      if pc.WakeSet? && pc.i == q { WakeSetWakes(s, c, p, m, lk); }
    }
  }
}
