/** A move that changes the locks as its program counters say, and leaves other
    processes at rest, keeps the core invariant. */
module ProcsMoves {
  import opened Common
  import opened Procs
  import opened ProcsInv

  // ----- locks -----

  /** Locks of other CPUs stay, and CPU c holds what its thread now says. */
  lemma LocksFollow(s: State, s': State, c: nat)
    requires LockInv(s) && c < NCPU && OthersStay(s, s', c)
    requires forall l: Lock :: l in s'.held && s'.held[l] == c <==> CpuHolds(s', c, l)
    requires forall l :: l in s.held && s.held[l] != c ==> l in s'.held && s'.held[l] == s.held[l]
    requires forall l :: l in s'.held && s'.held[l] != c ==> l in s.held && s.held[l] == s'.held[l]
    ensures LockInv(s')
  {
    forall c': nat, l: Lock | c' < NCPU ensures LockOk(s', c', l) {
      assert LockOk(s, c', l);
      if c' != c {
        assert s'.cpus[c'] == s.cpus[c'];
        assert CpuHolds(s', c', l) == CpuHolds(s, c', l);
      }
    }
  }

  /** A process runs on one CPU only. */
  lemma RunsOnce(s: State, c: nat, p: nat, c': nat)
    requires Core(s) && Runs(s, c, p) && c' < NCPU && c' != c
    ensures s.cpus[c'].cur != Some(p) && s.cpus[c'].proc != Some(p)
  {
    assert CpuOk(s, c) && CpuOk(s, c');
  }

  /** p is executing at a program counter the code can reach. */
  lemma Here(s: State, c: nat, p: nat)
    requires Core(s) && Runs(s, c, p)
    ensures PcWf(p, s.procs[p].pc) && Active(s.procs[p]) && s.procs[p].on == Some(c)
  {
    assert CpuOk(s, c) && ProcOk(s, p);
  }

  /** Whoever holds p_i->lock finds process i at rest unless it is RUNNING. */
  lemma LockedRests(s: State, c: nat, i: nat)
    requires Core(s) && c < NCPU && i < NPROC && CpuHolds(s, c, PLock(i))
    requires s.procs[i].on != Some(c) && s.procs[i].state != RUNNING
    ensures s.procs[i].on == None && Resting(s.procs[i]) && PcWf(i, s.procs[i].pc)
  {
    assert ProcOk(s, i) && LockOk(s, c, PLock(i));
    forall c': nat | c' < NCPU
      ensures s.procs[i].on == Some(c') ==> c' == c
    {
      assert LockOk(s, c', PLock(i)) && CpuOk(s, c');
    }
  }

  lemma FoundAtRest(s: State, c: nat, p: nat, i: nat)
    requires Core(s) && Runs(s, c, p) && i < NPROC && i != p
    requires ProcLock(p, s.procs[p].pc) == Some(i) && s.procs[i].state != RUNNING
    ensures s.procs[i].on == None && Resting(s.procs[i]) && PcWf(i, s.procs[i].pc)
  {
    assert ProcOk(s, i) && CpuOk(s, c);
    LockedRests(s, c, i);
  }

  /** The locks of CPU c after the move. */
  lemma LocksHere(s: State, c: nat, p: nat, m: Move, l: Lock)
    requires Core(s) && Runs(s, c, p) && Unblocked(s, m) && MoveOk(s, p, m)
    ensures var s' := Perform(s, c, p, m);
      && (l in s'.held && s'.held[l] == c <==> CpuHolds(s', c, l))
      && (l in s.held && s.held[l] != c ==> l in s'.held && s'.held[l] == s.held[l])
      && (l in s'.held && s'.held[l] != c ==> l in s.held && s.held[l] == s'.held[l])
  {
    assert LockOk(s, c, l) && CpuOk(s, c);
    if m.op.Give? { assert LockOk(s, c, m.op.l); }
  }

  lemma MoveLocks(s: State, c: nat, p: nat, m: Move)
    requires Core(s) && Runs(s, c, p) && Unblocked(s, m) && MoveOk(s, p, m)
    ensures LockInv(Perform(s, c, p, m))
  {
    var s' := Perform(s, c, p, m);
    forall l: Lock ensures
      && (l in s'.held && s'.held[l] == c <==> CpuHolds(s', c, l))
      && (l in s.held && s.held[l] != c ==> l in s'.held && s'.held[l] == s.held[l])
      && (l in s'.held && s'.held[l] != c ==> l in s.held && s.held[l] == s'.held[l])
    {
      LocksHere(s, c, p, m, l);
    }
    forall c': nat | c' < NCPU && c' != c
      ensures s.cpus[c'].cur.Some? && s.cpus[c'].cur.value < NPROC ==>
            s'.procs[s.cpus[c'].cur.value].pc == s.procs[s.cpus[c'].cur.value].pc
    {
      RunsOnce(s, c, p, c');
      assert CpuOk(s, c');
    }
    LocksFollow(s, s', c);
  }

  // ----- CPUs and processes -----

  lemma MoveCpu(s: State, c: nat, p: nat, m: Move, c': nat)
    requires Core(s) && Runs(s, c, p) && Unblocked(s, m) && MoveOk(s, p, m) && c' < NCPU
    ensures CpuOk(Perform(s, c, p, m), c')
  {
    assert CpuOk(s, c') && CpuOk(s, c);
  }

  lemma MoveProc(s: State, c: nat, p: nat, m: Move, q: nat)
    requires Core(s) && Runs(s, c, p) && Unblocked(s, m) && MoveOk(s, p, m) && q < NPROC
    ensures ProcOk(Perform(s, c, p, m), q)
  {
    assert CpuOk(s, c) && ProcOk(s, q);
  }

  lemma PerformCore(s: State, c: nat, p: nat, m: Move)
    requires Core(s) && Runs(s, c, p) && Unblocked(s, m) && MoveOk(s, p, m)
    ensures Core(Perform(s, c, p, m))
  {
    MoveLocks(s, c, p, m);
    forall c': nat | c' < NCPU ensures CpuOk(Perform(s, c, p, m), c') { MoveCpu(s, c, p, m, c'); }
    forall q: nat | q < NPROC ensures ProcOk(Perform(s, c, p, m), q) { MoveProc(s, c, p, m, q); }
  }
}
