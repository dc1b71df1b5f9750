/** Giving up a whole tree: which pages freewalk visits. */
module PageFree {
  import opened PageTables
  import opened PageTrees
  import opened PagePool

  /** The pages a tree owns. */
  function OwnedBy(owner: map<nat, Slot>, root: nat): (ps: set<nat>) {
    set p | p in owner && owner[p].root == root
  }

  /** The entry at depth d above slot s. */
  function Above(s: Slot, d: nat): (n: nat)
    requires d <= s.d
    decreases s.d - d
  {
    if d == s.d then s.n else Above(s, d + 1) / FANOUT
  }

  /** The pages of a tree at and below entry n of depth d. */
  function Subtree(owner: map<nat, Slot>, root: nat, d: nat, n: nat): (ps: set<nat>) {
    set p | p in owner && owner[p].root == root && d <= owner[p].d && Above(owner[p], d) == n
  }

  /** The part of that below its first i entries. */
  function Visited(owner: map<nat, Slot>, root: nat, d: nat, n: nat, i: nat): (ps: set<nat>) {
    set p | p in owner && owner[p].root == root && d < owner[p].d && Above(owner[p], d) == n
            && Above(owner[p], d + 1) < n * FANOUT + i
  }

  lemma VisitedStep(owner: map<nat, Slot>, root: nat, d: nat, n: nat, i: nat)
    requires i < FANOUT
    ensures Visited(owner, root, d, n, i + 1) == Visited(owner, root, d, n, i)
        + Subtree(owner, root, d + 1, n * FANOUT + i)
    ensures Visited(owner, root, d, n, i) !! Subtree(owner, root, d + 1, n * FANOUT + i)
  {
    forall p | p in owner && d < owner[p].d ensures Above(owner[p], d) == Above(owner[p], d + 1) / FANOUT {}
  }

  lemma VisitedMono(owner: map<nat, Slot>, root: nat, d: nat, n: nat, i: nat)
    requires i <= FANOUT
    ensures Visited(owner, root, d, n, i) <= Visited(owner, root, d, n, FANOUT)
  {}

  lemma VisitedAll(pages: Pages, roots: set<nat>, owner: map<nat, Slot>, p: nat)
    requires TreesOk(pages, roots, owner) && p in owner
    ensures var s := owner[p]; Subtree(owner, s.root, s.d, s.n) == Visited(owner, s.root, s.d, s.n, FANOUT) + {p}
    ensures var s := owner[p];
      p !in Visited(owner, s.root, s.d, s.n, FANOUT) && Visited(owner, s.root, s.d, s.n, 0) == {}
  {
    var s := owner[p];
    assert OwnerOk(pages, roots, owner, p);
    forall q | q in owner && s.d < owner[q].d ensures Above(owner[q], s.d) == Above(owner[q], s.d + 1) / FANOUT {}
    forall q | q in Subtree(owner, s.root, s.d, s.n) && q != p ensures q in Visited(owner, s.root, s.d, s.n, FANOUT) {
      assert OwnerOk(pages, roots, owner, q);
    }
  }

  lemma VisitedNext(owner: map<nat, Slot>, s: Slot, i: nat, held: set<nat>, now: set<nat>, more: set<nat>)
    requires i < FANOUT && now == held - Visited(owner, s.root, s.d, s.n, i) && more == SubtreeOf(owner, Child(s, i))
    ensures now - more == held - Visited(owner, s.root, s.d, s.n, i + 1)
    ensures Visited(owner, s.root, s.d, s.n, i) + more == Visited(owner, s.root, s.d, s.n, i + 1)
    ensures Visited(owner, s.root, s.d, s.n, i) !! more
    ensures more <= Visited(owner, s.root, s.d, s.n, FANOUT)
  {
    VisitedStep(owner, s.root, s.d, s.n, i);
    VisitedMono(owner, s.root, s.d, s.n, i + 1);
  }

  function SubtreeOf(owner: map<nat, Slot>, s: Slot): (ps: set<nat>) { Subtree(owner, s.root, s.d, s.n) }

  /** freewalk is at entry i of table p: only the pages in done, and the entries of p before i, have
      changed. */
  ghost predicate Sweeping(was: Pages, now: Pages, pages0: Pages, p: nat, done: set<nat>, i: nat) {
    && now.Keys == was.Keys && p in now && now[p].Table? && |now[p].ptes| == FANOUT
    && p in pages0 && pages0[p].Table? && |pages0[p].ptes| == FANOUT
    && (forall j: nat :: i <= j < FANOUT ==> now[p].ptes[j] == pages0[p].ptes[j])
    && (forall q :: q in now && q != p && q !in done ==> now[q] == was[q])
  }

  lemma SweepNext(was: Pages, mid: Pages, now: Pages, pages0: Pages, p: nat, done: set<nat>, more: set<nat>, i: nat)
    requires Sweeping(was, mid, pages0, p, done, i) && i < FANOUT && now.Keys == mid.Keys
    requires p in now && now[p] == Table(mid[p].ptes[i := 0])
    requires forall q :: q in now && q != p && q !in more ==> now[q] == mid[q]
    ensures Sweeping(was, now, pages0, p, done + more, i + 1)
  {}

  /** An entry with no page below it. */
  lemma EmptySubtree(pages: Pages, roots: set<nat>, owner: map<nat, Slot>, s: Slot)
    requires TreesOk(pages, roots, owner) && s.d > 0 && EntryAt(pages, s.root, s.d, s.n) == 0
    ensures Subtree(owner, s.root, s.d, s.n) == {}
  {
    forall p | p in owner && owner[p].root == s.root && s.d <= owner[p].d ensures Above(owner[p], s.d) != s.n {
      assert OwnerOk(pages, roots, owner, p);
      if Above(owner[p], s.d) == s.n { NothingBelow(pages, owner[p], s.d); }
    }
  }

  lemma {:induction false} NothingBelow(pages: Pages, s: Slot, d: nat)
    requires 0 < d <= s.d && EntryAt(pages, s.root, d, Above(s, d)) == 0
    ensures EntryAt(pages, s.root, s.d, s.n) == 0
    decreases s.d - d
  {
    if d < s.d {
      assert Above(s, d) == Above(s, d + 1) / FANOUT;
      NothingBelow(pages, s, d + 1);
    }
  }

  lemma {:induction false} RootAbove(roots: set<nat>, s: Slot, d: nat)
    requires InTree(roots, s) && d <= s.d
    ensures Above(s, d) < Width(d)
    decreases s.d - d
  {
    if d < s.d {
      RootAbove(roots, s, d + 1);
      assert Width(d + 1) == FANOUT * Width(d);
    }
  }

  /** All pages of a tree are below its root. */
  lemma WholeTree(pages: Pages, roots: set<nat>, owner: map<nat, Slot>, root: nat)
    requires TreesOk(pages, roots, owner) && root in roots
    ensures Subtree(owner, root, 0, 0) == OwnedBy(owner, root)
  {
    forall p | p in owner && owner[p].root == root ensures Above(owner[p], 0) == 0 {
      assert OwnerOk(pages, roots, owner, p);
      RootAbove(roots, owner[p], 0);
    }
  }

  /** A tree given up: its pages are held, the other trees are as before. */
  lemma DropRoot(pages: Pages, freelist: seq<nat>, roots: set<nat>, owner: map<nat, Slot>, held: set<nat>, root: nat)
    requires TreesOk(pages, roots, owner) && PoolOk(pages, freelist, owner, held) && root in roots
    ensures var ps := OwnedBy(owner, root);
      TreesOk(pages, roots - {root}, owner - ps) && PoolOk(pages, freelist, owner - ps, held + ps)
  {
    var ps := OwnedBy(owner, root);
    var owner' := owner - ps;
    forall s | InTree(roots - {root}, s) ensures SlotOk(pages, owner', s) {
      assert InTree(roots, s) && SlotOk(pages, owner, s);
    }
    forall p ensures OwnerOk(pages, roots - {root}, owner', p) { assert OwnerOk(pages, roots, owner, p); }
    forall r | r in roots - {root} ensures Owns(pages, owner', Slot(r, 0, 0), r) && pages[r].Table? {
      assert Owns(pages, owner, Slot(r, 0, 0), r);
    }
  }

  /** A held page becomes the root of a new, empty tree. */
  lemma NewRoot(pages: Pages, freelist: seq<nat>, roots: set<nat>, owner: map<nat, Slot>, held: set<nat>, q: nat)
    requires TreesOk(pages, roots, owner) && PoolOk(pages, freelist, owner, held) && q in held
    ensures q in pages && q !in roots && var pages', owner' := pages[q := ZERO_TABLE], owner[q := Slot(q, 0, 0)];
      && TreesOk(pages', roots + {q}, owner') && PoolOk(pages', freelist, owner', held - {q})
      && SameLeaves(pages, pages', roots) && (forall v: nat :: v < Width(LEVELS) ==> LeafAt(pages', q, v) == 0)
  {
    var pages', owner' := pages[q := ZERO_TABLE], owner[q := Slot(q, 0, 0)];
    forall r | r in roots ensures r != q { assert Owns(pages, owner, Slot(r, 0, 0), r); }
    forall s | InTree(roots, s) ensures EntryAt(pages', s.root, s.d, s.n) == EntryAt(pages, s.root, s.d, s.n) {
      DataFrame(pages, pages', roots, owner, s);
    }
    LeavesOf(pages, pages', roots);
    forall s | InTree(roots + {q}, s) ensures SlotOk(pages', owner', s) {
      if s.root == q { NewEntries(pages, q, s); } else { assert InTree(roots, s) && SlotOk(pages, owner, s); }
    }
    forall v: nat | v < Width(LEVELS) ensures LeafAt(pages', q, v) == 0 { NewEntries(pages, q, Slot(q, LEVELS, v)); }
    forall p ensures OwnerOk(pages', roots + {q}, owner', p) {
      assert OwnerOk(pages, roots, owner, p);
      PteFrame(q, PTE_V);
    }
    forall r | r in roots + {q} ensures Owns(pages', owner', Slot(r, 0, 0), r) && pages'[r].Table? {
      assert r in roots ==> Owns(pages, owner, Slot(r, 0, 0), r);
    }
  }

  lemma {:induction false} NewEntries(pages: Pages, q: nat, s: Slot)
    requires s.root == q
    ensures EntryAt(pages[q := ZERO_TABLE], q, s.d, s.n) == if s.d == 0 then MakePte(q, PTE_V) else 0
    decreases s.d
  {
    if s.d > 0 {
      NewEntries(pages, q, Parent(s));
      PteFrame(q, PTE_V);
    }
  }
}
