/** kwait sees every exit of every child. */
module ProcsWait {
  import opened Common
  import opened Procs
  import opened ProcsInv
  import opened ProcsMoves
  import opened ProcsCore
  import opened ProcsSleepInv
  import opened ProcsSleep
  import opened ProcsFamilyInv
  import opened ProcsFamily

  // ----- the scan for exited children -----

  lemma PrevIntoScan(p: nat, pc: Pc, next: Pc)
    requires PcWf(p, pc) && Prev(p, pc, next) && (Scanned(next) > 0 || next.WaitScan?)
    ensures Scanned(pc) > 0 || pc.WaitScan? || pc.WaitLock? || pc.WaitCheck? || next == WaitScan(0, false)
  {
    if IsSleep(next) { PrevIntoSleep(p, pc, next); }
  }

  lemma PrevIntoSleep(p: nat, pc: Pc, next: Pc)
    requires PcWf(p, pc) && Prev(p, pc, next) && IsSleep(next) && Scanned(next) > 0
    ensures Scanned(pc) > 0 || pc.WaitScan? || pc.WaitLock? || pc.WaitCheck?
  {}

  lemma IntoScan(s: State, p: nat, m: Move, j: nat)
    requires p < NPROC && PcWf(p, s.procs[p].pc) && May(s, p, m) && j < NPROC && j < Scanned(m.self.pc)
    ensures var pc := s.procs[p].pc;
      || j < Scanned(pc) || (pc.WaitScan? && pc.i == j && s.procs[j].parent != Some(p))
      || (pc == WaitCheck(j) && s.procs[j].state != ZOMBIE)
  {
    StepPrev(s, p, m);
    PrevIntoScan(p, s.procs[p].pc, m.self.pc);
  }

  lemma IntoChildless(s: State, p: nat, m: Move, j: nat)
    requires p < NPROC && PcWf(p, s.procs[p].pc) && May(s, p, m)
    requires m.self.pc.WaitScan? && !m.self.pc.kids && j < NPROC && j < m.self.pc.i
    ensures var pc := s.procs[p].pc;
      pc.WaitScan? && !pc.kids && (j < pc.i || (j == pc.i && s.procs[j].parent != Some(p)))
  {
    StepPrev(s, p, m);
  }

  /** A child gained or an exit seen by q while q does not move. */
  lemma ZombieChildFrom(s: State, c: nat, p: nat, m: Move, q: nat, j: nat)
    requires Step(s, c, p, m) && q < NPROC && j < NPROC && ZombieChild(Perform(s, c, p, m), q, j)
    ensures || ZombieChild(s, q, j)
            || (j == p && s.procs[p].pc.ExitSet? && s.procs[p].parent == Some(q))
            || (q == INIT && s.procs[p].pc.Reparent? && s.procs[p].pc.i < NPROC && m.other.Set?)
  {
    if j == p {
      SelfKeeps(s, p, m);
      SelfState(s, p, m);
    } else {
      ElseChange(s, c, p, m, j);
      assert ForkerOk(s, p);
    }
  }

  lemma OwnScanKept(s: State, c: nat, p: nat, m: Move, j: nat)
    requires Step(s, c, p, m) && WaitInv(s) && j < NPROC
    ensures ScanOk(Perform(s, c, p, m), p, j)
  {
    var next := m.self.pc;
    if Scanned(next) > 0 || next.WaitScan? {
      Here(s, c, p);
      if j < Scanned(next) { IntoScan(s, p, m, j); }
      if next.WaitScan? && !next.kids && j < next.i { IntoChildless(s, p, m, j); }
      assert ScanOk(s, p, j) && ParentOk(s, p);
      ParentChange(s, c, p, m, j);
      if ZombieChild(Perform(s, c, p, m), p, j) { ZombieChildFrom(s, c, p, m, p, j); }
    }
  }

  lemma ElseScanKept(s: State, c: nat, p: nat, m: Move, q: nat, j: nat)
    requires Step(s, c, p, m) && WaitInv(s) && q < NPROC && j < NPROC && q != p
    ensures ScanOk(Perform(s, c, p, m), q, j)
  {
    ElseBusy(s, c, p, m, q);
    assert ScanOk(s, q, j);
    if CondLock(s.procs[q].pc) == Some(WaitLk) {
      ParentsStill(s, c, p, m, q, j);
      if ZombieChild(Perform(s, c, p, m), q, j) { ElseZombieChild(s, c, p, m, q, j); }
    }
  }

  lemma ElseZombieChild(s: State, c: nat, p: nat, m: Move, q: nat, j: nat)
    requires Step(s, c, p, m) && q < NPROC && j < NPROC && q != p && CondLock(s.procs[q].pc) == Some(WaitLk)
    requires ZombieChild(Perform(s, c, p, m), q, j)
    ensures ZombieChild(s, q, j)
  {
    ZombieChildFrom(s, c, p, m, q, j);
    if CondLock(s.procs[p].pc) == Some(WaitLk) { CondExclusive(s, p, q); }
  }

  // ----- children -----

  lemma PrevIntoAtKid(p: nat, pc: Pc, next: Pc)
    requires Prev(p, pc, next) && !IsYield(pc) && AtKid(next)
    ensures (pc.WaitScan? && next == WaitLock(pc.i)) || (AtKid(pc) && pc.i == next.i)
  {}

  lemma PrevIntoKid(p: nat, pc: Pc, next: Pc)
    requires Prev(p, pc, next) && !IsYield(pc) && SawKid(next) && !AtKid(next)
    ensures SawKid(pc)
  {
    if IsSleep(next) { SleepIntoKid(p, pc, next); } else { ScanIntoKid(p, pc, next); }
  }

  lemma SleepIntoKid(p: nat, pc: Pc, next: Pc)
    requires Prev(p, pc, next) && !IsYield(pc) && IsSleep(next) && next.lk.WaitLk?
    ensures SawKid(pc)
  {}

  lemma ScanIntoKid(p: nat, pc: Pc, next: Pc)
    requires Prev(p, pc, next) && !IsYield(pc) && SawKid(next) && !AtKid(next) && !IsSleep(next)
    ensures SawKid(pc)
  {}

  lemma IntoAtKid(s: State, p: nat, m: Move)
    requires p < NPROC && PcWf(p, s.procs[p].pc) && May(s, p, m) && !IsYield(s.procs[p].pc) && AtKid(m.self.pc)
    ensures var pc, next := s.procs[p].pc, m.self.pc;
      next.i < NPROC && (s.procs[next.i].parent == Some(p) || (AtKid(pc) && pc.i == next.i))
  {
    StepPrev(s, p, m);
    PrevIntoAtKid(p, s.procs[p].pc, m.self.pc);
  }

  lemma IntoKid(s: State, p: nat, m: Move)
    requires p < NPROC && PcWf(p, s.procs[p].pc) && May(s, p, m) && SawKid(Base(m.self.pc))
    ensures var pc, next := s.procs[p].pc, m.self.pc;
      && (AtKid(next) ==> next.i < NPROC && (s.procs[next.i].parent == Some(p) || (AtKid(pc) && pc.i == next.i)))
      && (SawKid(Base(pc)) || (AtKid(next) && s.procs[next.i].parent == Some(p)))
  {
    StepPrev(s, p, m);
    var pc, next := s.procs[p].pc, m.self.pc;
    if IsYield(pc) || IsYield(next) { PrevBase(p, pc, next); }
    else if AtKid(next) { IntoAtKid(s, p, m); }
    else { PrevIntoKid(p, pc, next); }
  }

  lemma OwnKidKept(s: State, c: nat, p: nat, m: Move)
    requires Step(s, c, p, m) && WaitInv(s)
    ensures KidOk(Perform(s, c, p, m), p)
  {
    if SawKid(Base(m.self.pc)) {
      Here(s, c, p);
      IntoKid(s, p, m);
      assert KidOk(s, p);
      var j: nat :| j < NPROC && s.procs[j].parent == Some(p);
      OwnKidStays(s, c, p, m, j);
      if AtKid(m.self.pc) { OwnKidStays(s, c, p, m, m.self.pc.i); }
    }
  }

  lemma OwnKidStays(s: State, c: nat, p: nat, m: Move, j: nat)
    requires Step(s, c, p, m) && SawKid(Base(m.self.pc)) && j < NPROC && s.procs[j].parent == Some(p)
    ensures Perform(s, c, p, m).procs[j].parent == Some(p)
  {
    Here(s, c, p);
    IntoKid(s, p, m);
    ParentChange(s, c, p, m, j);
    assert ForkerOk(s, p) && ChildOk(s, j);
  }

  /** A child of another process stays its child. */
  lemma KidStays(s: State, c: nat, p: nat, m: Move, q: nat, j: nat)
    requires Step(s, c, p, m) && WaitInv(s) && q < NPROC && q != p && j < NPROC && s.procs[j].parent == Some(q)
    ensures Perform(s, c, p, m).procs[j].parent == Some(q)
  {
    ParentChange(s, c, p, m, j);
    assert ForkerOk(s, p) && ChildOk(s, j) && KidOk(s, p);
  }

  lemma ElseKidKept(s: State, c: nat, p: nat, m: Move, q: nat)
    requires Step(s, c, p, m) && WaitInv(s) && q < NPROC && q != p
    ensures KidOk(Perform(s, c, p, m), q)
  {
    var s' := Perform(s, c, p, m);
    var next := s'.procs[q].pc;
    if SawKid(Base(next)) {
      ElseBusy(s, c, p, m, q);
      assert KidOk(s, q);
      var j: nat :| j < NPROC && s.procs[j].parent == Some(q);
      KidStays(s, c, p, m, q, j);
      if AtKid(next) { KidStays(s, c, p, m, q, next.i); }
    }
  }

  // ----- exits -----

  lemma NewExitSeen(s: State, c: nat, p: nat, m: Move, q: nat, j: nat)
    requires Step(s, c, p, m) && WaitInv(s) && q < NPROC && j < NPROC
    requires Waits(s, q) && Waits(Perform(s, c, p, m), q)
    requires ZombieChild(Perform(s, c, p, m), q, j) && !ZombieChild(s, q, j)
    ensures WillWake(Perform(s, c, p, m), p, q, ProcChan(q), WaitLk)
  {
    ZombieChildFrom(s, c, p, m, q, j);
    assert ExitWakeOk(s, p);
    if s.procs[p].pc.Reparent? && s.procs[p].pc.i < NPROC && m.other.Set? { ReparentWakes(s, p, m); }
  }

  lemma ReparentWakes(s: State, p: nat, m: Move)
    requires p < NPROC && May(s, p, m) && s.procs[p].pc.Reparent? && s.procs[p].pc.i < NPROC && m.other.Set?
    ensures m.self.pc == WakeAcq(ProcChan(INIT), 0, Reparent(s.procs[p].pc.i + 1, s.procs[p].pc.status))
  {}

  lemma ExitSeenKept(s: State, c: nat, p: nat, m: Move, q: nat, j: nat)
    requires Step(s, c, p, m) && WaitInv(s) && q < NPROC && j < NPROC
    ensures ExitSeen(Perform(s, c, p, m), q, j)
  {
    var s' := Perform(s, c, p, m);
    if Waits(s', q) && ZombieChild(s', q, j) {
      WaitingFrom(s, c, p, m, q, ProcChan(q), WaitLk);
      assert ScanOk(s, q, j) && ExitSeen(s, q, j);
      if !ZombieChild(s, q, j) {
        DozerMissesNone(s, c, p, m, q, j);
        NewExitSeen(s, c, p, m, q, j);
      } else {
        var r: nat :| r < NPROC && WillWake(s, r, q, ProcChan(q), WaitLk);
        WakerStays(s, c, p, m, r, q, ProcChan(q), WaitLk);
      }
    }
  }

  /** A process that goes to sleep in kwait gains no exited child as it does. */
  lemma DozerMissesNone(s: State, c: nat, p: nat, m: Move, q: nat, j: nat)
    requires Step(s, c, p, m) && WaitInv(s) && q < NPROC && j < NPROC
    requires Waits(Perform(s, c, p, m), q) && ZombieChild(Perform(s, c, p, m), q, j) && !ZombieChild(s, q, j)
    ensures Waits(s, q)
  {
    WaitingFrom(s, c, p, m, q, ProcChan(q), WaitLk);
    ZombieChildFrom(s, c, p, m, q, j);
  }
}
