/** The file system over the log: operations of one process, a crash at any time, and the
    files that recovery leaves. */
module FsCrash {
  import opened Blocks
  import opened LogHeader
  import opened Storage
  import opened CrashSafety
  import opened FsDisk
  import opened FsOwn
  import opened FsSteps
  import FsFiles

  // ----- a file system on the blocks of a disk -----

  /** Two disks have the same blocks from the inodes on. */
  ghost predicate Agree(sb: Super, bs: seq<Block>, cs: seq<Block>) {
    |bs| == sb.size == |cs| && forall n: nat :: sb.inodestart <= n < sb.size ==> bs[n] == cs[n]
  }

  /** The blocks from the inodes on are those of d. */
  ghost predicate Holds(sb: Super, bs: seq<Block>, d: Fs) { Sized(sb, d) && Agree(sb, bs, d.blocks) }

  /** A state between two operations: a good file system with every inode written back. */
  ghost predicate Settled(sb: Super, d: Fs, owner: map<nat, Slot>) {
    FsFiles.FsOk(sb, d, owner) && FsFiles.Clean(sb, d, sb.ninodes)
  }

  /** With nothing in memory, such blocks have the same files. */
  lemma HoldsFiles(sb: Super, bs: seq<Block>, d: Fs, owner: map<nat, Slot>)
    requires Settled(sb, d, owner) && Holds(sb, bs, d)
    ensures SameFiles(sb, d, Fs(bs, map[]))
  {
    var d' := Fs(bs, map[]);
    OwnInData(sb, d, owner, {});
    forall i: nat | i < sb.ninodes ensures Current(sb, d', i) == Current(sb, d, i) {}
    forall i: nat, k: nat | i < sb.ninodes && k < NSLOT ensures AddrAt(sb, d', i, k) == AddrAt(sb, d, i, k) {
      assert AddrInData(sb, d, i, NDIRECT) && Current(sb, d', i) == Current(sb, d, i);
    }
    forall i: nat, o: nat | i < sb.ninodes && o < MAXFILE * BSIZE ensures ByteAt(sb, d', i, o) == ByteAt(sb, d, i, o) {
      assert AddrInData(sb, d, i, DataSlot(o / BSIZE));
    }
  }

  lemma HoldsOk(sb: Super, bs: seq<Block>, d: Fs, owner: map<nat, Slot>)
    requires Settled(sb, d, owner) && Holds(sb, bs, d)
    ensures FsFiles.FsOk(sb, Fs(bs, map[]), owner) && SameFiles(sb, d, Fs(bs, map[]))
  {
    var d' := Fs(bs, map[]);
    HoldsFiles(sb, bs, d, owner);
    forall b: nat | b < sb.size ensures MarkOk(sb, d', owner, {}, b) { assert MarkOk(sb, d, owner, {}, b); }
    OwnFrame(sb, d, d', owner, {}, {}, sb.ninodes);
    forall i: nat | i < sb.ninodes ensures FsFiles.InodeOk(sb, d', i) {
      assert FsFiles.InodeOk(sb, d, i);
      FsFiles.SameInodeOk(sb, d, d', i);
    }
  }

  // ----- operations in a run -----

  /** How many operations of p end in ss[from..t]. */
  function Ends(ss: seq<Step>, p: Proc, from: nat, t: nat): (n: nat)
    requires from <= t <= |ss|
  {
    if t == from then 0 else Ends(ss, p, from, t - 1) + (if ss[t - 1] == EndOp(p) then 1 else 0)
  }

  /** The log lies before the inodes (kernel/fs.h), and the disk is as large as the superblock says. */
  predicate LogBefore(sb: Super, w: World) {
    w.start + LOGBLOCKS < sb.inodestart && |w.disk| == sb.size
  }

  ghost predicate EndAt(ws: seq<World>, ss: seq<Step>, p: Proc, from: nat, t: nat, sb: Super, ds: seq<Fs>)
    requires Readable(ws) && from <= t < |ss| < |ws|
  {
    Ends(ss, p, from, t) + 1 < |ds| && Holds(sb, Visible(ws[t]), ds[Ends(ss, p, from, t) + 1])
  }

  /** From time from to time k process p alone changes the file system, and its operations
      take it from ds[0] to ds[1], from ds[1] to ds[2], and so on. */
  ghost predicate Performs(ws: seq<World>, ss: seq<Step>, p: Proc, from: nat, k: nat, sb: Super, ds: seq<Fs>)
    requires Readable(ws) && |ws| == |ss| + 1
  {
    && from <= k <= |ss| && ds != [] && ws[from].ops[p].Out? && Holds(sb, Visible(ws[from]), ds[0])
    && (forall t :: from <= t < k ==> ss[t] != Crash && (ss[t].Modify? ==> ss[t].p == p))
    && (forall t :: from <= t < k && ss[t] == EndOp(p) ==> EndAt(ws, ss, p, from, t, sb, ds))
  }

  /** Only begin_op and end_op take a process into an operation and out of it. */
  lemma StaysOut(w: World, s: Step, p: Proc)
    requires Enabled(w, s) && !s.Crash? && s != EndOp(p) && Next(w, s).ops[p].Out?
    ensures w.ops[p].Out?
  {}

  /** Outside operations nothing that is visible changes. */
  lemma VisibleKept(w: World, s: Step, p: Proc)
    requires Inv(w) && Enabled(w, s) && !s.Crash? && (s.Modify? ==> s.p == p) && (w.ops[p].Out? || s == EndOp(p))
    ensures HeaderOk(Next(w, s)) && Visible(Next(w, s)) == Visible(w)
  {
    StepRefines(w, s);
    assert !s.Modify?;
  }

  /** Between operations of p the visible blocks are those its last operation left. */
  lemma {:induction false} Between(ws: seq<World>, ss: seq<Step>, p: Proc, from: nat, k: nat, sb: Super, ds: seq<Fs>,
      t: nat)
    requires IsRun(ws, ss) && Readable(ws) && Performs(ws, ss, p, from, k, sb, ds)
    requires from <= t <= k && ws[t].ops[p].Out?
    ensures Ends(ss, p, from, t) < |ds| && Holds(sb, Visible(ws[t]), ds[Ends(ss, p, from, t)])
    decreases t
  {
    if t > from {
      var u := t - 1;
      assert StepAt(ws, ss, u);
      EveryRunKeepsInv(ws, ss, u);
      if ss[u] == EndOp(p) {
        assert EndAt(ws, ss, p, from, u, sb, ds);
      } else {
        StaysOut(ws[u], ss[u], p);
        Between(ws, ss, p, from, k, sb, ds, u);
      }
      VisibleKept(ws[u], ss[u], p);
    }
  }

  /** The committed contents do not change without a commit. */
  lemma {:induction false} NoCommitSince(ws: seq<World>, ss: seq<Step>, c: nat, k: nat)
    requires Readable(ws) && |ws| == |ss| + 1 && c <= k < |ws|
    requires forall t :: c <= t < k ==> !ss[t].CommitHead?
    ensures LastCommitted(ws, ss, k) == LastCommitted(ws, ss, c)
    decreases k
  {
    if c < k { NoCommitSince(ws, ss, c, k - 1); }
  }

  /** Crash at time k and recover by time m. */
  ghost predicate CrashesAndRecovers(ws: seq<World>, ss: seq<Step>, k: nat, m: nat) {
    && IsRun(ws, ss) && k < m < |ws|
    && ss[k] == Crash && (forall i :: k < i < m ==> InRecovery(ws[i])) && ws[m].phase.Running?
  }

  lemma DiskHolds(sb: Super, w: World, bs: seq<Block>, d: Fs)
    requires LogBefore(sb, w) && Holds(sb, bs, d) && forall n: nat :: IsHome(w, n) ==> w.disk[n] == bs[n]
    ensures Holds(sb, w.disk, d)
  {
    forall n: nat | sb.inodestart <= n < sb.size ensures w.disk[n] == d.blocks[n] { assert IsHome(w, n); }
  }

  /** What a commit makes durable is what the operations of p that have ended leave. */
  lemma CommitsWholeOperations(ws: seq<World>, ss: seq<Step>, p: Proc, from: nat, c: nat, k: nat, sb: Super,
      ds: seq<Fs>)
    requires IsRun(ws, ss) && Readable(ws) && Performs(ws, ss, p, from, k, sb, ds)
    requires from <= c < k && ss[c].CommitHead?
    ensures Ends(ss, p, from, c) < |ds| && Holds(sb, LastCommitted(ws, ss, c + 1), ds[Ends(ss, p, from, c)])
  {
    assert StepAt(ws, ss, c);
    EveryRunKeepsInv(ws, ss, c);
    CommitOutsideOperations(ws[c], ss[c], p);
    Between(ws, ss, p, from, k, sb, ds, c);
  }

  /** Crash while p runs its operations, and recover. If c was the last commit, the disk holds
      exactly the operations of p that had ended by then: a good file system with their files. */
  lemma CrashKeepsWholeOperations(ws: seq<World>, ss: seq<Step>, p: Proc, from: nat, c: nat, k: nat, m: nat, sb: Super,
                                  ds: seq<Fs>, owners: seq<map<nat, Slot>>)
    requires CrashesAndRecovers(ws, ss, k, m) && Readable(ws) && Performs(ws, ss, p, from, k, sb, ds)
    requires from <= c < k && ss[c].CommitHead? && forall t :: c < t < k ==> !ss[t].CommitHead?
    requires LogBefore(sb, ws[m])
    requires |owners| == |ds| && forall j: nat :: j < |ds| ==> Settled(sb, ds[j], owners[j])
    ensures var j := Ends(ss, p, from, c);
      && j < |ds| && FsFiles.FsOk(sb, Fs(ws[m].disk, map[]), owners[j])
      && SameFiles(sb, ds[j], Fs(ws[m].disk, map[]))
  {
    var j := Ends(ss, p, from, c);
    CommitsWholeOperations(ws, ss, p, from, c, k, sb, ds);
    NoCommitSince(ws, ss, c + 1, k);
    CrashAtomicity(ws, ss, k, m);
    DiskHolds(sb, ws[m], LastCommitted(ws, ss, k), ds[j]);
    HoldsOk(sb, ws[m].disk, ds[j], owners[j]);
  }

  /** If nothing has been committed since the first operation began, none of them is there. */
  lemma CrashBeforeCommit(ws: seq<World>, ss: seq<Step>, from: nat, k: nat, m: nat)
    requires CrashesAndRecovers(ws, ss, k, m) && from <= k && forall t :: from <= t < k ==> !ss[t].CommitHead?
    ensures HeaderOk(ws[from]) && |Durable(ws[from])| == |ws[m].disk|
    ensures forall n: nat :: IsHome(ws[m], n) ==> ws[m].disk[n] == Durable(ws[from])[n]
  {
    CrashAtomicity(ws, ss, k, m);
    NoCommitSince(ws, ss, from, k);
    DurableIsLastCommitted(ws, ss, from);
  }
}
