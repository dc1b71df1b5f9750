/** When the buffer cache has a buffer for commit and for recovery (kernel/bio.c, kernel/log.c). */
module LogRoom {
  import opened Common
  import opened Blocks
  import opened BufferCache
  import opened LogHeader
  import opened Storage
  import opened StorageSafety

  ghost predicate NoUsers(w: World) { forall b: BufId :: w.users[b] == 0 }

  /** Every buffer is in use or pinned, so that bget panics for a block that is not cached. */
  ghost predicate Busy(w: World) { forall b: BufId :: w.cache.bufs[b].refcnt > 0 }

  /** Nobody uses a buffer, and the log does not pin all of them. */
  ghost predicate Roomy(w: World) { NoUsers(w) && |PinnedBlocks(w)| < NBUF }

  /** Block n is not cached, and no buffer is free for it. */
  ghost predicate NoBuffer(w: World, n: nat) { Busy(w) && forall b: BufId :: !Holds(w.cache.bufs[b], DEV, n) }

  /** bget finds no buffer exactly if the block is not cached and every buffer is in use. */
  lemma ChooseNone(w: World, n: nat)
    requires Shape(w.cache)
    ensures Choose(w.cache, DEV, n) == None <==> NoBuffer(w, n)
  {
    var c := w.cache;
    var hit, victim := FirstMatch(c, DEV, n, 0), LastUnused(c, NBUF);
    if Choose(c, DEV, n) == None {
      forall b: BufId
        ensures !Holds(c.bufs[b], DEV, n) && c.bufs[b].refcnt > 0
      {
        var k := Position(c.order, b);
        assert 0 <= k < hit && victim < k < NBUF;
      }
    }
  }

  // ----- counting pinned buffers -----

  /** The buffers that hold a block of s. */
  ghost function Holders(c: Cache, s: seq<Word>): (bs: set<BufId>) {
    set b: BufId | b in Below(NBUF) && c.bufs[b].dev == DEV && c.bufs[b].blockno in s
  }

  /** The buffers that hold block n. */
  ghost function HoldersOf(c: Cache, n: Word): (bs: set<BufId>) {
    set b: BufId | b in Below(NBUF) && c.bufs[b].dev == DEV && c.bufs[b].blockno == n
  }

  lemma HoldersMore(c: Cache, s: seq<Word>, n: Word)
    ensures Holders(c, s + [n]) == Holders(c, s) + HoldersOf(c, n)
  {}

  lemma OneHolder(c: Cache, n: Word)
    requires Unique(c)
    ensures |HoldersOf(c, n)| <= 1
  {
    if b: BufId :| b in HoldersOf(c, n) {
      assert HoldersOf(c, n) == {b};
    }
  }

  lemma {:induction false} FewHolders(c: Cache, s: seq<Word>)
    requires Unique(c)
    ensures |Holders(c, s)| <= |s|
    decreases |s|
  {
    if s == [] {
      assert Holders(c, s) == {};
    } else {
      var last, rest := s[|s| - 1], s[..|s| - 1];
      assert s == rest + [last];
      FewHolders(c, rest);
      HoldersMore(c, rest, last);
      OneHolder(c, last);
    }
  }

  /** Some buffer holds each of the blocks. */
  ghost predicate AllHeld(c: Cache, s: seq<Word>) {
    forall n :: n in s ==> HoldersOf(c, n) != {}
  }

  lemma Apart(c: Cache, s: seq<Word>, n: Word)
    requires n !in s
    ensures Holders(c, s) !! HoldersOf(c, n)
  {}

  lemma JoinSize<T>(a: set<T>, b: set<T>)
    requires a !! b && b != {}
    ensures |a + b| >= |a| + 1
  {}

  lemma {:induction false} ManyHolders(c: Cache, s: seq<Word>)
    requires Distinct(s) && AllHeld(c, s)
    ensures |Holders(c, s)| >= |s|
    decreases |s|
  {
    if s != [] {
      var last, rest := s[|s| - 1], s[..|s| - 1];
      assert s == rest + [last];
      MoreHeld(c, rest, last);
      ManyHolders(c, rest);
    }
  }

  lemma MoreHeld(c: Cache, s: seq<Word>, n: Word)
    requires Distinct(s + [n]) && AllHeld(c, s + [n])
    ensures Distinct(s) && AllHeld(c, s) && |Holders(c, s + [n])| >= |Holders(c, s)| + 1
  {
    var t := s + [n];
    assert t[|s|] == n && forall i :: 0 <= i < |s| ==> t[i] == s[i];
    HoldersMore(c, s, n);
    Apart(c, s, n);
    JoinSize(Holders(c, s), HoldersOf(c, n));
  }

  /** n numbers below n are all of them. */
  lemma AllBelow(bs: set<nat>, n: nat, b: nat)
    requires |bs| >= n && b < n && forall x :: x in bs ==> x < n
    ensures b in bs
  {
    if b !in bs {
      SubsetSize(bs + {b}, Below(n));
      assert false;
    }
  }

  /** Fewer leave one out. */
  lemma OneOutside(bs: set<nat>, n: nat) returns (b: nat)
    requires |bs| < n
    ensures b < n && b !in bs
  {
    if Below(n) <= bs {
      SubsetSize(Below(n), bs);
      assert false;
    }
    b :| b in Below(n) && b !in bs;
  }

  // ----- when bget succeeds -----

  /** If a buffer is neither among a few that are used nor pinned, bget finds one. */
  lemma FreeFinds(w: World, bs: set<BufId>, n: nat)
    requires Inv(w) && (forall b: BufId :: b !in bs ==> w.users[b] == 0) && |PinnedBlocks(w)| + |bs| < NBUF
    ensures !NoBuffer(w, n)
  {
    var ps := Holders(w.cache, PinnedBlocks(w));
    FewHolders(w.cache, PinnedBlocks(w));
    var all: nat := |w.cache.bufs|;
    var b := OneOutside(ps + bs, all);
    assert BufferOk(w, b);
  }

  lemma RoomyFinds(w: World, n: nat)
    requires Inv(w) && Roomy(w)
    ensures !NoBuffer(w, n)
  {
    FreeFinds(w, {}, n);
  }

  /** A pinned block is cached. */
  lemma PinnedFinds(w: World, n: nat)
    requires Inv(w) && n in PinnedBlocks(w)
    ensures !NoBuffer(w, n)
  {
    var b: BufId :| Caches(w, b, n);
  }

  /** When the log pins every buffer, bget finds none for a block that is not logged. */
  lemma FullLogFindsNone(w: World, n: nat)
    requires Inv(w) && |PinnedBlocks(w)| == NBUF && Distinct(PinnedBlocks(w)) && n !in PinnedBlocks(w)
    ensures NoBuffer(w, n)
  {
    var s := PinnedBlocks(w);
    forall m | m in s
      ensures HoldersOf(w.cache, m) != {}
    {
      var b: BufId :| Caches(w, b, m);
      assert b in HoldersOf(w.cache, m);
    }
    ManyHolders(w.cache, s);
    forall b: BufId
      ensures w.cache.bufs[b].refcnt > 0 && !Holds(w.cache.bufs[b], DEV, n)
    {
      AllBelow(Holders(w.cache, s), |s|, b);
      assert BufferOk(w, b);
    }
  }

  /** A log that pins every buffer cannot be copied. */
  lemma FullLogStops(w: World, tail: nat)
    requires Inv(w) && w.phase.WritingLog? && tail < |w.lh|
    ensures |w.lh| == NBUF ==> NoBuffer(w, w.start + tail + 1)
  {
    assert IsLog(w, w.start + tail + 1);
    if |w.lh| == NBUF { FullLogFindsNone(w, w.start + tail + 1); }
  }

  // ----- who uses buffers -----

  function MoreUsers(users: seq<nat>, b: nat): (r: seq<nat>)
    requires b < |users|
  {
    users[b := users[b] + 1]
  }

  function FewerUsers(users: seq<nat>, b: nat): (r: seq<nat>)
    requires b < |users| && users[b] > 0
  {
    users[b := users[b] - 1]
  }

  lemma UsersBack(users: seq<nat>, b: nat)
    requires b < |users|
    ensures FewerUsers(MoreUsers(users, b), b) == users
  {}

  lemma BothBack(users: seq<nat>, b: nat, c: nat)
    requires b < |users| && c < |users| && b != c
    ensures var more := MoreUsers(MoreUsers(users, b), c);
      FewerUsers(FewerUsers(more, b), c) == users && FewerUsers(FewerUsers(more, c), b) == users
  {}

  /** After one bread, another finds a buffer too: for a pinned block, or when nothing is pinned. */
  lemma SecondFinds(w: World, w': World, b: BufId, n: nat)
    requires Inv(w') && w'.users == MoreUsers(w.users, b) && PinnedBlocks(w') == PinnedBlocks(w)
    ensures Roomy(w) && (PinnedBlocks(w) == [] || n in PinnedBlocks(w)) ==> !NoBuffer(w', n)
  {
    if n in PinnedBlocks(w) {
      PinnedFinds(w', n);
    } else if PinnedBlocks(w) == [] && NoUsers(w) {
      FreeFinds(w', {b}, n);
    }
  }

  /** While an operation may still log a block, the log does not pin every buffer. */
  lemma SpaceLeft(w: World, p: Proc)
    requires Inv(w) && w.ops[p].In? && w.ops[p].added < MAXOPBLOCKS
    ensures w.phase.Running? && |w.lh| < NBUF && (NoUsers(w) ==> Roomy(w))
  {
    UnspentBounds(w.ops);
    assert Room(w.ops[p]) <= Unspent(w.ops);
  }

  // ----- the last end_op -----

  /** No process but p is inside an operation. */
  ghost predicate OnlyOne(w: World, p: Proc) { forall q: Proc :: q != p ==> w.ops[q].Out? }

  /** end_op starts a commit exactly if it ends the last operation and something is logged. */
  lemma EndOpCommits(w: World, p: Proc)
    requires Inv(w) && CanEndOp(w, p)
    ensures Next(w, EndOp(p)).phase == if OnlyOne(w, p) && w.lh != [] then WritingLog(0) else Running
    ensures Next(w, EndOp(p)).ops == w.ops[p := Out]
  {
    var ops := w.ops[p := Out];
    UnspentBounds(ops);
    if OnlyOne(w, p) {
      forall q: nat | q < |ops|
        ensures ops[q].Out?
      {
        assert q != p ==> w.ops[q as Proc].Out?;
      }
    } else {
      var q: Proc :| q != p && w.ops[q].In?;
      assert ops[q].In?;
    }
  }

  /** There are no more outstanding operations than processes in ps. */
  lemma {:induction false} FewOutstanding(ops: seq<OpState>, ps: set<nat>)
    requires forall p: nat :: p < |ops| && ops[p].In? ==> p in ps
    ensures Outstanding(ops) <= |ps|
  {
    if ops != [] {
      var last := |ops| - 1;
      var init := ops[..last];
      if ops[last].In? {
        forall p: nat | p < |init| && init[p].In? ensures p in ps - {last} { assert ops[p].In?; }
        FewOutstanding(init, ps - {last});
      } else {
        forall p: nat | p < |init| && init[p].In? ensures p in ps { assert ops[p].In?; }
        FewOutstanding(init, ps);
      }
    }
  }

  /** begin_op makes nobody wait while the log is empty and fewer than three operations are in progress. */
  lemma ThreeAtOnce(w: World, p: Proc, ps: set<nat>)
    requires w.phase.Running? && w.ops[p].Out? && w.lh == []
    requires |ps| < 3 && forall q: Proc :: w.ops[q].In? ==> q in ps
    ensures Enabled(w, BeginOp(p))
  {
    forall q: nat | q < |w.ops| && w.ops[q].In? ensures q in ps { var r: Proc := q; assert w.ops[r].In?; }
    FewOutstanding(w.ops, ps);
  }

  /** With an empty log and no operation, what is visible is durable, and any process can begin one. */
  lemma AllDurable(w: World)
    requires Inv(w) && w.phase.Running? && w.lh == [] && forall q: Proc :: w.ops[q].Out?
    ensures Visible(w) == Durable(w) && forall q: Proc :: CanBeginOp(w, q)
  {
    UnspentBounds(w.ops);
    forall n: nat | n < |w.disk|
      ensures VisibleAt(w, n) == DurableAt(w, n)
    {
      forall b: BufId | Caches(w, b, n)
        ensures w.cache.bufs[b].data == w.disk[n]
      {
        assert BufferOk(w, b);
      }
    }
  }
}
