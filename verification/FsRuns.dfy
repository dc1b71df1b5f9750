/** Processes that run the code of the file system over the log: a crash in the middle of a write. */
module FsRuns {
  import opened Common
  import opened Blocks
  import BufferCache
  import opened FsBits
  import opened LogHeader
  import opened Storage
  import opened CrashSafety
  import opened FsDisk
  import opened FsOwn
  import opened FsCrash
  import FsFiles
  import FsTheorems

  // ----- what a process does in a run -----

  /** What p has written in its operation by time t: the blocks it modified, with their contents. */
  function Made(ws: seq<World>, ss: seq<Step>, p: Proc, from: nat, t: nat): (us: seq<Write>)
    requires from <= t <= |ss| < |ws|
  {
    if t == from then []
    else
      var before := Made(ws, ss, p, from, t - 1);
      match ss[t - 1]
      case BeginOp(q) => if q == p then [] else before
      case Modify(q, b, data) => if q == p then before + [Write(ws[t - 1].cache.bufs[b].blockno, data)] else before
      case _ => before
  }

  /** At time t process p, if inside an operation, is somewhere in the writes of ops, at their end if it
      calls end_op, and calls log_write only for a block it has modified. */
  ghost predicate RunsAt(ws: seq<World>, ss: seq<Step>, p: Proc, from: nat, t: nat, ops: seq<seq<Write>>)
    requires from <= t <= |ss| < |ws|
  {
    var j, us := Ends(ss, p, from, t), Made(ws, ss, p, from, t);
    ws[t].ops[p].In? ==>
      && j < |ops| && us <= ops[j]
      && (t < |ss| && ss[t] == EndOp(p) ==> us == ops[j])
      && (t < |ss| && ss[t].LogWrite? && ss[t].p == p ==> ws[t].cache.bufs[ss[t].b].blockno in Targets(us))
  }

  /** From time from to time k process p alone changes the file system, by operations that make the writes
      of ops one after the other. */
  ghost predicate Executes(ws: seq<World>, ss: seq<Step>, p: Proc, from: nat, k: nat, ops: seq<seq<Write>>)
    requires |ws| == |ss| + 1
  {
    && from <= k <= |ss| && ws[from].ops[p].Out?
    && (forall t :: from <= t < k ==> ss[t] != Crash && (ss[t].Modify? ==> ss[t].p == p))
    && (forall t :: from <= t <= k ==> RunsAt(ws, ss, p, from, t, ops))
  }

  /** The states that the operations lead through. */
  ghost predicate Linked(sb: Super, ds: seq<Fs>, ops: seq<seq<Write>>) {
    && |ds| == |ops| + 1 && (forall j: nat :: j < |ds| ==> Sized(sb, ds[j]))
    && forall j: nat :: j < |ops| ==> ds[j + 1].blocks == Replay(ds[j].blocks, ops[j])
  }

  // ----- what is visible meanwhile -----

  /** What is visible when p is after j operations and the writes us of the next. */
  ghost predicate Shows(sb: Super, w: World, p: Proc, ds: seq<Fs>, ops: seq<seq<Write>>, j: nat, us: seq<Write>)
    requires HeaderOk(w)
  {
    if w.ops[p].Out? then j < |ds| && Holds(sb, Visible(w), ds[j])
    else j < |ops| && j < |ds| && Agree(sb, Visible(w), Replay(ds[j].blocks, us))
  }

  /** How a step changes whether p is inside an operation. */
  lemma OpState(w: World, s: Step, p: Proc)
    requires Enabled(w, s) && !s.Crash?
    ensures s != BeginOp(p) && s != EndOp(p) ==> Next(w, s).ops[p].Out? == w.ops[p].Out?
    ensures s == BeginOp(p) ==> w.ops[p].Out? && Next(w, s).ops[p] == In(0)
    ensures s == EndOp(p) ==> w.ops[p].In? && Next(w, s).ops[p].Out?
  {}

  /** A step that is not a modification leaves what is visible. */
  lemma StaysVisible(w: World, s: Step)
    requires Inv(w) && Enabled(w, s) && !s.Crash? && !s.Modify?
    ensures HeaderOk(Next(w, s)) && Visible(Next(w, s)) == Visible(w)
  {
    StepRefines(w, s);
  }

  lemma ModifyShows(sb: Super, w: World, p: Proc, b: BufferCache.BufId, data: Block, cs: seq<Block>, us: seq<Write>)
    requires Inv(w) && Enabled(w, Modify(p, b, data)) && Agree(sb, Visible(w), Replay(cs, us))
    ensures var w' := Next(w, Modify(p, b, data));
      HeaderOk(w') && Agree(sb, Visible(w'), Replay(cs, us + [Write(w.cache.bufs[b].blockno, data)]))
  {
    var n := w.cache.bufs[b].blockno;
    var vs := us + [Write(n, data)];
    StepRefines(w, Modify(p, b, data));
    assert vs[..|us|] == us;
    assert n < |Visible(w)|;
  }

  /** A step other than a modification. */
  lemma ShowsQuiet(sb: Super, w: World, s: Step, p: Proc, ds: seq<Fs>, ops: seq<seq<Write>>, j: nat, us: seq<Write>,
                   j': nat, us': seq<Write>)
    requires Inv(w) && Enabled(w, s) && !s.Crash? && !s.Modify? && Linked(sb, ds, ops)
    requires Shows(sb, w, p, ds, ops, j, us)
    requires j' == (if s == EndOp(p) then j + 1 else j) && us' == (if s == BeginOp(p) then [] else us)
    requires (s == EndOp(p) ==> j < |ops| && us == ops[j]) && (s == BeginOp(p) ==> j < |ops|)
    ensures HeaderOk(Next(w, s)) && Shows(sb, Next(w, s), p, ds, ops, j', us')
  {
    OpState(w, s, p);
    StaysVisible(w, s);
  }

  /** One step. */
  lemma ShowsNext(sb: Super, ws: seq<World>, ss: seq<Step>, p: Proc, from: nat, k: nat, ds: seq<Fs>,
                  ops: seq<seq<Write>>, u: nat)
    requires IsRun(ws, ss) && Readable(ws) && Executes(ws, ss, p, from, k, ops) && Linked(sb, ds, ops) && from <= u < k
    requires Shows(sb, ws[u], p, ds, ops, Ends(ss, p, from, u), Made(ws, ss, p, from, u))
    ensures Shows(sb, ws[u + 1], p, ds, ops, Ends(ss, p, from, u + 1), Made(ws, ss, p, from, u + 1))
  {
    assert StepAt(ws, ss, u) && RunsAt(ws, ss, p, from, u, ops) && RunsAt(ws, ss, p, from, u + 1, ops);
    EveryRunKeepsInv(ws, ss, u);
    var w, s, j, us := ws[u], ss[u], Ends(ss, p, from, u), Made(ws, ss, p, from, u);
    OpState(w, s, p);
    if s.Modify? {
      ModifyShows(sb, w, p, s.b, s.data, ds[j].blocks, us);
    } else {
      ShowsQuiet(sb, w, s, p, ds, ops, j, us, Ends(ss, p, from, u + 1), Made(ws, ss, p, from, u + 1));
    }
  }

  /** At every time the visible blocks are those that the code of the file system has computed. */
  lemma {:induction false} AlwaysShows(sb: Super, ws: seq<World>, ss: seq<Step>, p: Proc, from: nat, k: nat,
                                       ds: seq<Fs>, ops: seq<seq<Write>>, t: nat)
    requires IsRun(ws, ss) && Readable(ws) && Executes(ws, ss, p, from, k, ops) && Linked(sb, ds, ops)
    requires from <= t <= k && Holds(sb, Visible(ws[from]), ds[0])
    ensures Shows(sb, ws[t], p, ds, ops, Ends(ss, p, from, t), Made(ws, ss, p, from, t))
    decreases t
  {
    if t > from {
      var u := t - 1;
      AlwaysShows(sb, ws, ss, p, from, k, ds, ops, u);
      ShowsNext(sb, ws, ss, p, from, k, ds, ops, u);
      assert u + 1 == t;
    }
  }

  /** So what it reads through the buffer cache is what it computed. */
  lemma ReadsComputed(sb: Super, ws: seq<World>, ss: seq<Step>, p: Proc, from: nat, k: nat, ds: seq<Fs>,
                      ops: seq<seq<Write>>, t: nat, b: BufferCache.BufId, n: nat)
    requires IsRun(ws, ss) && Readable(ws) && Executes(ws, ss, p, from, k, ops) && Linked(sb, ds, ops)
    requires from <= t <= k && Holds(sb, Visible(ws[from]), ds[0]) && ws[t].ops[p].In?
    requires sb.inodestart <= n < sb.size && IsHome(ws[t], n) && Has(ws[t], b, n)
    ensures var j := Ends(ss, p, from, t);
      && j < |ds| && |ds[j].blocks| == sb.size
      && ws[t].cache.bufs[b].data == Replay(ds[j].blocks, Made(ws, ss, p, from, t))[n]
  {
    AlwaysShows(sb, ws, ss, p, from, k, ds, ops, t);
    EveryRunKeepsInv(ws, ss, t);
    ReadsLatest(ws[t], b, n);
  }

  /** The operations do what Performs says. */
  lemma ExecutesPerforms(sb: Super, ws: seq<World>, ss: seq<Step>, p: Proc, from: nat, k: nat, ds: seq<Fs>,
                         ops: seq<seq<Write>>)
    requires IsRun(ws, ss) && Readable(ws) && Executes(ws, ss, p, from, k, ops) && Linked(sb, ds, ops)
    requires Holds(sb, Visible(ws[from]), ds[0])
    ensures Performs(ws, ss, p, from, k, sb, ds)
  {
    forall t | from <= t < k && ss[t] == EndOp(p)
      ensures EndAt(ws, ss, p, from, t, sb, ds)
    {
      assert StepAt(ws, ss, t) && RunsAt(ws, ss, p, from, t, ops);
      OpState(ws[t], ss[t], p);
      AlwaysShows(sb, ws, ss, p, from, k, ds, ops, t);
    }
  }

  // ----- room in the log -----

  /** The blocks that p has added to the log in its operation. */
  function Added(ws: seq<World>, ss: seq<Step>, p: Proc, from: nat, t: nat): (ns: set<nat>)
    requires from <= t <= |ss| < |ws|
  {
    if t == from then {}
    else
      var before := Added(ws, ss, p, from, t - 1);
      match ss[t - 1]
      case BeginOp(q) => if q == p then {} else before
      case LogWrite(q, b) =>
        var n := ws[t - 1].cache.bufs[b].blockno;
        if q == p && n !in ws[t - 1].lh then before + {n} else before
      case _ => before
  }

  ghost predicate AddedOk(ws: seq<World>, ss: seq<Step>, p: Proc, from: nat, t: nat)
    requires from <= t <= |ss| < |ws|
  {
    var ns := Added(ws, ss, p, from, t);
    ws[t].ops[p].In? ==>
      |ns| == ws[t].ops[p].added && (forall n :: n in ns ==> n in ws[t].lh) && ns <= Targets(Made(ws, ss, p, from, t))
  }

  /** Inside an operation the log only grows, by log_write. */
  lemma LogGrows(w: World, s: Step, p: Proc)
    requires Inv(w) && Enabled(w, s) && !s.Crash? && w.ops[p].In?
    ensures forall n :: n in w.lh ==> n in Next(w, s).lh
    ensures s.LogWrite? ==> w.cache.bufs[s.b].blockno in Next(w, s).lh
    ensures !(s.LogWrite? && s.p == p && w.cache.bufs[s.b].blockno !in w.lh) && s != EndOp(p) ==>
      Next(w, s).ops[p] == w.ops[p]
    ensures s.LogWrite? && s.p == p && w.cache.bufs[s.b].blockno !in w.lh ==>
      Next(w, s).ops[p] == In(w.ops[p].added + 1)
  {}

  lemma AddedNext(ws: seq<World>, ss: seq<Step>, p: Proc, from: nat, k: nat, ops: seq<seq<Write>>, u: nat)
    requires IsRun(ws, ss) && Executes(ws, ss, p, from, k, ops) && from <= u < k && AddedOk(ws, ss, p, from, u)
    ensures AddedOk(ws, ss, p, from, u + 1)
  {
    assert StepAt(ws, ss, u) && RunsAt(ws, ss, p, from, u, ops);
    EveryRunKeepsInv(ws, ss, u);
    var w, s := ws[u], ss[u];
    OpState(w, s, p);
    if w.ops[p].In? {
      LogGrows(w, s, p);
      if s.Modify? { TargetsMore(Made(ws, ss, p, from, u), Write(w.cache.bufs[s.b].blockno, s.data)); }
    }
  }

  lemma {:induction false} AddedAlwaysOk(ws: seq<World>, ss: seq<Step>, p: Proc, from: nat, k: nat,
                                         ops: seq<seq<Write>>, t: nat)
    requires IsRun(ws, ss) && Executes(ws, ss, p, from, k, ops) && from <= t <= k
    ensures AddedOk(ws, ss, p, from, t)
    decreases t
  {
    if t > from {
      AddedAlwaysOk(ws, ss, p, from, k, ops, t - 1);
      AddedNext(ws, ss, p, from, k, ops, t - 1);
    }
  }

  lemma TargetsPrefix(us: seq<Write>, vs: seq<Write>)
    requires us <= vs
    ensures Targets(us) <= Targets(vs)
  {
    forall n | n in Targets(us)
      ensures n in Targets(vs)
    {
      var k :| 0 <= k < |us| && us[k].n == n;
      assert vs[k].n == n;
    }
  }

  /** A process whose operations write at most seven blocks each never adds more than seven to the log, so
      that log_write has room for each of them. */
  lemma RoomInLog(sb: Super, ws: seq<World>, ss: seq<Step>, p: Proc, from: nat, k: nat, ops: seq<seq<Write>>, t: nat)
    requires IsRun(ws, ss) && Executes(ws, ss, p, from, k, ops) && from <= t <= k
    requires FsFiles.SmallOperations(sb, ops) && sb.size <= BPB
    ensures ws[t].ops[p].In? ==> ws[t].ops[p].added <= 7 < MAXOPBLOCKS
  {
    AddedAlwaysOk(ws, ss, p, from, k, ops, t);
    assert RunsAt(ws, ss, p, from, t, ops);
    if ws[t].ops[p].In? {
      var us, vs := Made(ws, ss, p, from, t), ops[Ends(ss, p, from, t)];
      TargetsPrefix(us, vs);
      assert vs in ops;
      SubsetSize(Added(ws, ss, p, from, t), Targets(vs));
    }
  }

  // ----- filewrite -----

  function Disks(stages: seq<FsFiles.Stage>): (ds: seq<Fs>)
    ensures |ds| == |stages| && forall j: nat :: j < |stages| ==> ds[j] == stages[j].d
  {
    seq(|stages|, j requires 0 <= j < |stages| => stages[j].d)
  }

  function Owners(stages: seq<FsFiles.Stage>): (os: seq<map<nat, Slot>>)
    ensures |os| == |stages| && forall j: nat :: j < |stages| ==> os[j] == stages[j].owner
  {
    seq(|stages|, j requires 0 <= j < |stages| => stages[j].owner)
  }

  /** Every file has a size that fits. */
  ghost predicate Fits(sb: Super, d: Fs) {
    Sized(sb, d) && forall i: nat :: i < sb.ninodes ==> Current(sb, d, i).size <= MAXFILE * BSIZE
  }

  lemma OkFits(sb: Super, d: Fs, owner: map<nat, Slot>)
    requires FsFiles.FsOk(sb, d, owner)
    ensures Fits(sb, d)
  {
    forall i: nat | i < sb.ninodes ensures Current(sb, d, i).size <= MAXFILE * BSIZE { assert FsFiles.InodeOk(sb, d,
        i); }
  }

  lemma SameContent(sb: Super, d: Fs, d': Fs, i: nat)
    requires SameFiles(sb, d, d') && Fits(sb, d) && i < sb.ninodes
    ensures Current(sb, d', i) == Current(sb, d, i) && FsFiles.Content(sb, d', i) == FsFiles.Content(sb, d, i)
  {
    var s, r := FsFiles.Content(sb, d', i), FsFiles.Content(sb, d, i);
    assert Current(sb, d', i) == Current(sb, d, i);
    forall o: nat | o < |s| ensures s[o] == r[o] {
      assert ByteAt(sb, d', i, o) == ByteAt(sb, d, i, o);
    }
  }

  /** The files of d are those of d0, with n bytes of src written into file i. */
  ghost predicate WroteFirst(sb: Super, d0: Fs, d: Fs, i: nat, off: nat, src: seq<Byte>, n: nat)
    requires Fits(sb, d0) && Fits(sb, d) && i < sb.ninodes && n <= |src| && off <= Current(sb, d0, i).size
  {
    && FsFiles.Content(sb, d, i) == FsTheorems.Splice(FsFiles.Content(sb, d0, i), off, src[..n])
    && forall x: nat :: x < sb.ninodes && x != i ==> FsFiles.Content(sb, d, x) == FsFiles.Content(sb, d0, x)
  }

  lemma StageFiles(sb: Super, d0: Fs, d: Fs, i: nat, off: nat, src: seq<Byte>, n: nat)
    requires FsFiles.Done(sb, d0, d, i, off, src, n) && Fits(sb, d0) && Fits(sb, d)
    requires i in d0.cached && i < sb.ninodes && n <= |src| && off <= Current(sb, d0, i).size
    ensures WroteFirst(sb, d0, d, i, off, src, n)
  {
    assert FsFiles.Wrote(sb, d0, d, i, off, src, n);
    FsTheorems.WriteIsSplice(sb, d0, d, i, off, src, n);
    forall x: nat | x < sb.ninodes && x != i ensures FsFiles.Content(sb, d, x) == FsFiles.Content(sb, d0, x) {
      FsTheorems.OtherFilesKept(sb, d0, d, i, off, src, n, x);
    }
  }

  lemma FilesKept(sb: Super, d0: Fs, d: Fs, d': Fs, i: nat, off: nat, src: seq<Byte>, n: nat)
    requires Fits(sb, d0) && Fits(sb, d) && Fits(sb, d') && i < sb.ninodes && n <= |src|
        && off <= Current(sb, d0, i).size
    requires WroteFirst(sb, d0, d, i, off, src, n) && SameFiles(sb, d, d')
    ensures WroteFirst(sb, d0, d', i, off, src, n)
  {
    forall x: nat | x < sb.ninodes ensures FsFiles.Content(sb, d', x) == FsFiles.Content(sb, d, x) {
      SameContent(sb, d, d', x);
    }
  }

  lemma StagesSettled(sb: Super, d0: Fs, i: nat, off: nat, src: seq<Byte>, done: nat, stages: seq<FsFiles.Stage>)
    requires FsFiles.Staged(sb, d0, stages, i, off, src, done)
    ensures forall l: nat :: l < |stages| ==> Settled(sb, Disks(stages)[l], Owners(stages)[l])
  {
    forall l: nat | l < |stages| ensures Settled(sb, Disks(stages)[l], Owners(stages)[l]) {
      assert FsFiles.StageOk(sb, d0, stages[l], i, off, src, if l < |stages| - 1 then l * FsFiles.CHUNK else done);
    }
  }

  /** The states between the operations of filewrite, as Performs wants them. */
  lemma StagesLinked(sb: Super, d0: Fs, i: nat, off: nat, src: seq<Byte>, done: nat, ops: seq<seq<Write>>,
                     stages: seq<FsFiles.Stage>)
    requires FsFiles.LinkedStages(stages, ops)
    requires forall l: nat :: l < |stages| ==> Settled(sb, Disks(stages)[l], Owners(stages)[l])
    ensures Linked(sb, Disks(stages), ops)
  {
    forall l: nat | l < |stages| ensures Sized(sb, Disks(stages)[l]) {
      assert Settled(sb, Disks(stages)[l], Owners(stages)[l]);
    }
  }

  /** Crash at any point of a filewrite that makes the writes of ops, and recover: the disk is a good file
      system, in which the file holds the bytes of a whole number of filewrite's operations, those that had
      ended at the last commit, and every other file is as it was. */
  lemma CrashedWrite(ws: seq<World>, ss: seq<Step>, p: Proc, from: nat, c: nat, k: nat, m: nat, sb: Super, d0: Fs,
                     i: nat, off: nat, src: seq<Byte>, done: nat, ops: seq<seq<Write>>, stages: seq<FsFiles.Stage>)
    requires CrashesAndRecovers(ws, ss, k, m) && Readable(ws) && Executes(ws, ss, p, from, k, ops)
    requires Holds(sb, Visible(ws[from]), d0) && LogBefore(sb, ws[m])
    requires from <= c < k && ss[c].CommitHead? && forall t :: c < t < k ==> !ss[t].CommitHead?
    requires stages != [] && FsFiles.Progress(sb, d0, stages[|stages| - 1], i, off, src, done, ops, stages)
    requires i in d0.cached && i < sb.ninodes && off <= Current(sb, d0, i).size
    ensures var j := Ends(ss, p, from, c); var d := Fs(ws[m].disk, map[]);
      && j < |stages| && FsFiles.FsOk(sb, d, stages[j].owner) && Fits(sb, d0) && Fits(sb, d)
      && var n := if j < |ops| then j * FsFiles.CHUNK else done;
         n <= |src| && WroteFirst(sb, d0, d, i, off, src, n)
  {
    var j := Ends(ss, p, from, c);
    var ds, os := Disks(stages), Owners(stages);
    StagesSettled(sb, d0, i, off, src, done, stages);
    StagesLinked(sb, d0, i, off, src, done, ops, stages);
    ExecutesPerforms(sb, ws, ss, p, from, k, ds, ops);
    CrashKeepsWholeOperations(ws, ss, p, from, c, k, m, sb, ds, os);
    StageRead(sb, d0, i, off, src, done, ops, stages, j, Fs(ws[m].disk, map[]));
  }

  lemma StageRead(sb: Super, d0: Fs, i: nat, off: nat, src: seq<Byte>, done: nat, ops: seq<seq<Write>>,
                  stages: seq<FsFiles.Stage>, j: nat, d: Fs)
    requires j < |stages| && FsFiles.Progress(sb, d0, stages[|stages| - 1], i, off, src, done, ops, stages)
    requires Sized(sb, d0) && i in d0.cached && i < sb.ninodes && off <= Current(sb, d0, i).size
    requires FsFiles.FsOk(sb, d, stages[j].owner) && SameFiles(sb, stages[j].d, d)
    ensures Fits(sb, d0) && Fits(sb, d)
    ensures var n := if j < |ops| then j * FsFiles.CHUNK else done;
      n <= |src| && WroteFirst(sb, d0, d, i, off, src, n)
  {
    var n := if j < |ops| then j * FsFiles.CHUNK else done;
    assert FsFiles.StageOk(sb, d0, stages[j], i, off, src, if j < |stages| - 1 then j * FsFiles.CHUNK else done);
    assert FsFiles.StageOk(sb, d0, stages[0], i, off, src, if 0 < |stages| - 1 then 0 * FsFiles.CHUNK else done);
    OkFits(sb, d0, stages[0].owner);
    OkFits(sb, stages[j].d, stages[j].owner);
    OkFits(sb, d, stages[j].owner);
    StageFiles(sb, d0, stages[j].d, i, off, src, n);
    FilesKept(sb, d0, stages[j].d, d, i, off, src, n);
  }
}
