/** The free page list (kernel/kalloc.c) and the trees share out the managed pages. */
module PagePool {
  import opened Common
  import opened PageTables
  import opened PageTrees

  /** Every managed page is free, owned by a tree, or held by other kernel code, and
      only one of these. Page 0 is not managed. */
  ghost predicate PoolOk(pages: Pages, freelist: seq<nat>, owner: map<nat, Slot>, held: set<nat>) {
    && Distinct(freelist) && 0 !in pages
    && (forall p :: p in pages <==> p in freelist || p in owner || p in held)
    && (forall p :: p in held ==> p !in owner && p !in freelist)
    && (forall p :: p in owner ==> p !in freelist)
  }

  /** The same leaf entries in every tree. */
  ghost predicate SameLeaves(pages: Pages, pages': Pages, roots: set<nat>) {
    forall r, v: nat :: r in roots && v < Width(LEVELS) ==> LeafAt(pages', r, v) == LeafAt(pages, r, v)
  }

  function LeafAt(pages: Pages, root: nat, vpn: nat): (pte: nat) { EntryAt(pages, root, LEVELS, vpn) }

  /** Pages with data of a tree, and pages held elsewhere, keep their contents. */
  ghost predicate SameData(pages: Pages, pages': Pages, owner: map<nat, Slot>, held: set<nat>) {
    && pages'.Keys == pages.Keys
    && (forall p :: p in pages && ((p in owner && owner[p].d == LEVELS) || p in held) ==> pages'[p] == pages[p])
  }

  /** The trees may have gained page-table pages, taken from the free list. */
  ghost predicate MoreTables(pages: Pages, pages': Pages, roots: set<nat>, owner: map<nat, Slot>, owner': map<nat,
                             Slot>,
                             held: set<nat>) {
    && SameLeaves(pages, pages', roots) && SameData(pages, pages', owner, held)
    && (forall p :: p in owner ==> p in owner' && owner'[p] == owner[p])
    && (forall p :: p in owner' && p !in owner ==> 0 < owner'[p].d < LEVELS)
  }

  /** A tree may have gained pages; nothing else changed hands. */
  ghost predicate Gains(owner: map<nat, Slot>, owner': map<nat, Slot>, root: nat) {
    && (forall p :: p in owner ==> p in owner' && owner'[p] == owner[p])
    && (forall p :: p in owner' && p !in owner ==> owner'[p].root == root)
  }

  lemma GainsTrans(owner: map<nat, Slot>, owner1: map<nat, Slot>, owner2: map<nat, Slot>, root: nat)
    requires Gains(owner, owner1, root) && Gains(owner1, owner2, root)
    ensures Gains(owner, owner2, root)
  {}

  /** p is the table at depth d on the way to vpn. */
  ghost predicate OnLevel(pages: Pages, owner: map<nat, Slot>, root: nat, vpn: nat, d: nat, p: nat) {
    d <= LEVELS && IsTable(pages, owner, p, d) && owner[p] == Slot(root, d, OnPath(vpn, d))
  }

  lemma RootLevel(pages: Pages, roots: set<nat>, owner: map<nat, Slot>, root: nat, vpn: nat)
    requires TreesOk(pages, roots, owner) && root in roots && vpn < MAXVPN
    ensures OnLevel(pages, owner, root, vpn, 0, root)
  {
    assert Owns(pages, owner, Slot(root, 0, 0), root);
    PathIndex(vpn, 0);
  }

  lemma MoreTablesTrans(pages: Pages, pages1: Pages, pages2: Pages, roots: set<nat>, owner: map<nat, Slot>,
                        owner1: map<nat, Slot>, owner2: map<nat, Slot>, held: set<nat>)
    requires MoreTables(pages, pages1, roots, owner, owner1, held)
    requires MoreTables(pages1, pages2, roots, owner1, owner2, held)
    ensures MoreTables(pages, pages2, roots, owner, owner2, held)
  {
    forall r, v: nat | r in roots && v < Width(LEVELS) ensures LeafAt(pages2, r, v) == LeafAt(pages, r, v) {
      assert LeafAt(pages1, r, v) == LeafAt(pages, r, v);
    }
    forall p | p in pages && ((p in owner && owner[p].d == LEVELS) || p in held) ensures pages2[p] == pages[p] {
      assert pages1[p] == pages[p];
    }
  }

  /** Linking a held page as a table. */
  lemma LinkHeld(pages: Pages, freelist: seq<nat>, roots: set<nat>, owner: map<nat, Slot>, held: set<nat>, p: nat,
                 i: nat, q: nat)
    requires TreesOk(pages, roots, owner) && PoolOk(pages, freelist, owner, held)
    requires p in owner && owner[p].d < LEVELS - 1
    requires IsTable(pages, owner, p, owner[p].d) && i < FANOUT && pages[p].ptes[i] == 0 && q in held
    ensures var pages', owner' := SetPte(pages, p, i, MakePte(q, PTE_V))[q := ZERO_TABLE],
        owner[q := Child(owner[p], i)];
      && TreesOk(pages', roots, owner') && PoolOk(pages', freelist, owner', held - {q})
      && MoreTables(pages, pages', roots, owner, owner', held - {q})
  {
    LinkTable(pages, roots, owner, p, i, q);
    TableInTree(pages, roots, owner, p, i);
    var pages' := SetPte(pages, p, i, MakePte(q, PTE_V))[q := ZERO_TABLE];
    forall r, v: nat | r in roots && v < Width(LEVELS) ensures LeafAt(pages', r, v) == LeafAt(pages, r, v) {
      LinkSet(pages, roots, owner, p, i, q, Slot(r, LEVELS, v));
    }
  }

  /** Nothing is mapped below an empty entry. */
  lemma {:induction false} DeadEnd(pages: Pages, root: nat, vpn: nat, d: nat)
    requires 0 < d <= LEVELS && EntryAt(pages, root, d, OnPath(vpn, d)) == 0
    ensures LeafAt(pages, root, vpn) == 0
    decreases LEVELS - d
  {
    if d < LEVELS {
      assert OnPath(vpn, d) == OnPath(vpn, d + 1) / FANOUT;
      DeadEnd(pages, root, vpn, d + 1);
    }
  }

  lemma MoreTablesRefl(pages: Pages, roots: set<nat>, owner: map<nat, Slot>, held: set<nat>)
    ensures MoreTables(pages, pages, roots, owner, owner, held)
  {}

  /** The leaf entry is in the last table of the walk. */
  lemma LeafInTable(pages: Pages, roots: set<nat>, owner: map<nat, Slot>, root: nat, vpn: nat, p: nat)
    requires TreesOk(pages, roots, owner) && IsTable(pages, owner, p, LEVELS - 1) && vpn < MAXVPN
    requires owner[p] == Slot(root, LEVELS - 1, OnPath(vpn, LEVELS - 1))
    ensures Child(owner[p], PX(0, vpn)) == Slot(root, LEVELS, vpn)
    ensures LeafAt(pages, root, vpn) == pages[p].ptes[PX(0, vpn)]
    ensures root in roots && vpn < Width(LEVELS)
  {
    PathIndex(vpn, LEVELS - 1);
    EntryInTable(pages, roots, owner, p, PX(0, vpn));
    TableInTree(pages, roots, owner, p, PX(0, vpn));
  }

  function Fill(b: Byte): (p: Page)
    ensures PageOk(p)
  {
    Data(seq(PGSIZE, _ => b))
  }

  lemma LeavesOf(pages: Pages, pages': Pages, roots: set<nat>)
    requires forall s :: InTree(roots, s) ==> EntryAt(pages', s.root, s.d, s.n) == EntryAt(pages, s.root, s.d, s.n)
    ensures SameLeaves(pages, pages', roots)
  {
    forall r, v: nat | r in roots && v < Width(LEVELS) ensures LeafAt(pages', r, v) == LeafAt(pages, r, v) {
      assert InTree(roots, Slot(r, LEVELS, v));
    }
  }

  /** kfree of a page nobody refers to. */
  lemma FreeHeld(pages: Pages, freelist: seq<nat>, roots: set<nat>, owner: map<nat, Slot>, held: set<nat>, q: nat)
    requires TreesOk(pages, roots, owner) && PoolOk(pages, freelist, owner, held) && q in held
    ensures q in pages && var pages' := pages[q := Fill(1)];
      && TreesOk(pages', roots, owner) && PoolOk(pages', [q] + freelist, owner, held - {q})
      && SameLeaves(pages, pages', roots) && SameData(pages, pages', owner, held - {q})
  {
    var pages' := pages[q := Fill(1)];
    DataWrite(pages, pages', roots, owner);
    LeavesOf(pages, pages', roots);
  }

  /** The leaf entries as before, but for entry vpn of one tree. */
  ghost predicate LeafChanged(pages: Pages, pages': Pages, roots: set<nat>, root: nat, vpn: nat, pte: nat) {
    forall r, v: nat :: r in roots && v < Width(LEVELS) ==>
      LeafAt(pages', r, v) == if r == root && v == vpn then pte else LeafAt(pages, r, v)
  }

  /** mappages sets the PTE of vpn in table p. */
  lemma MapHeld(pages: Pages, freelist: seq<nat>, roots: set<nat>, owner: map<nat, Slot>, held: set<nat>,
                root: nat, vpn: nat, p: nat, q: nat, flags: nat)
    requires TreesOk(pages, roots, owner) && PoolOk(pages, freelist, owner, held) && vpn < MAXVPN
    requires IsTable(pages, owner, p, LEVELS - 1) && owner[p] == Slot(root, LEVELS - 1, OnPath(vpn, LEVELS - 1))
    requires LeafAt(pages, root, vpn) == 0 && flags < 1024 && Present(flags) && IsLeaf(flags)
    requires if Kept(vpn) then !IsUser(flags) else q in held && q in pages && pages[q].Data?
    ensures var pages' := SetPte(pages, p, PX(0, vpn), MakePte(q, flags));
      var owner' := MapOwner(owner, Slot(root, LEVELS, vpn), q);
      var held' := if Kept(vpn) then held else held - {q};
      && TreesOk(pages', roots, owner') && PoolOk(pages', freelist, owner', held')
      && LeafChanged(pages, pages', roots, root, vpn, MakePte(q, flags)) && SameData(pages, pages', owner, held)
  {
    LeafInTable(pages, roots, owner, root, vpn, p);
    MapLeaf(pages, roots, owner, p, PX(0, vpn), q, flags);
    SetLeafChanges(pages, roots, owner, root, vpn, p, MakePte(q, flags));
  }

  lemma SetLeafChanges(pages: Pages, roots: set<nat>, owner: map<nat, Slot>, root: nat, vpn: nat, p: nat, pte: nat)
    requires TreesOk(pages, roots, owner) && vpn < MAXVPN
    requires IsTable(pages, owner, p, LEVELS - 1) && owner[p] == Slot(root, LEVELS - 1, OnPath(vpn, LEVELS - 1))
    ensures LeafChanged(pages, SetPte(pages, p, PX(0, vpn), pte), roots, root, vpn, pte)
  {
    LeafInTable(pages, roots, owner, root, vpn, p);
    var pages' := SetPte(pages, p, PX(0, vpn), pte);
    forall r, v: nat | r in roots && v < Width(LEVELS)
      ensures LeafAt(pages', r, v) == if r == root && v == vpn then pte else LeafAt(pages, r, v)
    {
      LeafSet(pages, roots, owner, p, PX(0, vpn), pte, Slot(r, LEVELS, v));
    }
  }

  /** uvmunmap clears the PTE of vpn in table p; the page it owned is then held. */
  lemma UnmapOwned(pages: Pages, freelist: seq<nat>, roots: set<nat>, owner: map<nat, Slot>, held: set<nat>,
                   root: nat, vpn: nat, p: nat)
    requires TreesOk(pages, roots, owner) && PoolOk(pages, freelist, owner, held) && vpn < MAXVPN
    requires IsTable(pages, owner, p, LEVELS - 1) && owner[p] == Slot(root, LEVELS - 1, OnPath(vpn, LEVELS - 1))
    requires LeafAt(pages, root, vpn) != 0
    ensures var pages' := SetPte(pages, p, PX(0, vpn), 0);
      var q := Frame(LeafAt(pages, root, vpn));
      var owner' := if Kept(vpn) then owner else owner - {q};
      var held' := if Kept(vpn) then held else held + {q};
      && (!Kept(vpn) ==> Owns(pages, owner, Slot(root, LEVELS, vpn), q) && q != p)
      && TreesOk(pages', roots, owner') && PoolOk(pages', freelist, owner', held')
      && LeafChanged(pages, pages', roots, root, vpn, 0) && SameData(pages, pages', owner, held)
  {
    LeafInTable(pages, roots, owner, root, vpn, p);
    UnmapLeaf(pages, roots, owner, p, PX(0, vpn));
    SetLeafChanges(pages, roots, owner, root, vpn, p, 0);
  }

  // ----- ranges -----

  /** The leaf entries as before, but none in pages lo .. hi of one tree. */
  ghost predicate Unmapped(pages: Pages, pages': Pages, roots: set<nat>, root: nat, lo: nat, hi: nat) {
    forall r, v: nat :: r in roots && v < Width(LEVELS) ==>
      LeafAt(pages', r, v) == if r == root && lo <= v < hi then 0 else LeafAt(pages, r, v)
  }

  lemma UnmappedStep(pages: Pages, pages1: Pages, pages2: Pages, roots: set<nat>, root: nat, lo: nat, v: nat)
    requires Unmapped(pages, pages1, roots, root, lo, v) && LeafChanged(pages1, pages2, roots, root, v, 0) && lo <= v
    ensures Unmapped(pages, pages2, roots, root, lo, v + 1)
  {
    forall r, w: nat | r in roots && w < Width(LEVELS)
      ensures LeafAt(pages2, r, w) == if r == root && lo <= w < v + 1 then 0 else LeafAt(pages, r, w)
    {
      assert LeafAt(pages1, r, w) == if r == root && lo <= w < v then 0 else LeafAt(pages, r, w);
    }
  }

  predicate InRange(s: Slot, root: nat, lo: nat, hi: nat) { s.root == root && s.d == LEVELS && lo <= s.n < hi }

  /** The pages of the range, and no other page, have lost their owner. */
  ghost predicate Released(owner: map<nat, Slot>, owner': map<nat, Slot>, root: nat, lo: nat, hi: nat) {
    && (forall p :: p in owner' ==> p in owner && owner'[p] == owner[p] && !InRange(owner[p], root, lo, hi))
    && (forall p :: p in owner && !InRange(owner[p], root, lo, hi) ==> p in owner')
  }

  /** What one round of uvmunmap with do_free does: clear the PTE, free the page. */
  lemma UnmapFree(pages: Pages, freelist: seq<nat>, roots: set<nat>, owner: map<nat, Slot>, held: set<nat>,
                  root: nat, vpn: nat, p: nat)
    requires TreesOk(pages, roots, owner) && PoolOk(pages, freelist, owner, held) && vpn < MAXVPN && !Kept(vpn)
    requires IsTable(pages, owner, p, LEVELS - 1) && owner[p] == Slot(root, LEVELS - 1, OnPath(vpn, LEVELS - 1))
    requires LeafAt(pages, root, vpn) != 0
    ensures var q := Frame(LeafAt(pages, root, vpn));
      && q in pages && q != p
      && var pages' := SetPte(pages[q := Fill(1)], p, PX(0, vpn), 0);
         && TreesOk(pages', roots, owner - {q}) && PoolOk(pages', [q] + freelist, owner - {q}, held)
         && LeafChanged(pages, pages', roots, root, vpn, 0) && SameData(pages, pages', owner - {q}, held)
         && Released(owner, owner - {q}, root, vpn, vpn + 1)
  {
    var q := Frame(LeafAt(pages, root, vpn));
    UnmapOwned(pages, freelist, roots, owner, held, root, vpn, p);
    var pages1 := SetPte(pages, p, PX(0, vpn), 0);
    FreeHeld(pages1, freelist, roots, owner - {q}, held + {q}, q);
    var pages2 := pages1[q := Fill(1)];
    assert pages2 == SetPte(pages[q := Fill(1)], p, PX(0, vpn), 0);
    assert held + {q} - {q} == held;
    LeafChangedBefore(pages, pages1, pages2, roots, root, vpn, 0);
    OnlyOwner(pages, roots, owner, Slot(root, LEVELS, vpn), q);
  }

  /** A leaf entry's page is owned in that one place. */
  lemma OnlyOwner(pages: Pages, roots: set<nat>, owner: map<nat, Slot>, s: Slot, q: nat)
    requires TreesOk(pages, roots, owner) && Owns(pages, owner, s, q)
    ensures forall p :: p in owner && owner[p] == s ==> p == q
  {
    forall p | p in owner && owner[p] == s ensures p == q {
      assert OwnerOk(pages, roots, owner, p) && OwnerOk(pages, roots, owner, q);
    }
  }

  lemma LeafChangedBefore(pages: Pages, pages1: Pages, pages2: Pages, roots: set<nat>, root: nat, vpn: nat, pte: nat)
    requires LeafChanged(pages, pages1, roots, root, vpn, pte) && SameLeaves(pages1, pages2, roots)
    ensures LeafChanged(pages, pages2, roots, root, vpn, pte)
  {
    forall r, v: nat | r in roots && v < Width(LEVELS)
      ensures LeafAt(pages2, r, v) == if r == root && v == vpn then pte else LeafAt(pages, r, v)
    {
      assert LeafAt(pages1, r, v) == if r == root && v == vpn then pte else LeafAt(pages, r, v);
    }
  }

  /** Pages lo .. hi of one tree are mapped, with these flags, to pages of zeroes; the
      other leaf entries are as before. */
  ghost predicate Grown(pages: Pages, pages': Pages, roots: set<nat>, root: nat, lo: nat, hi: nat, flags: nat) {
    forall r, v: nat :: r in roots && v < Width(LEVELS) ==>
      if r == root && lo <= v < hi then ZeroPage(pages', LeafAt(pages', r, v), flags)
      else LeafAt(pages', r, v) == LeafAt(pages, r, v)
  }

  ghost predicate ZeroPage(pages: Pages, pte: nat, flags: nat) {
    Present(pte) && Flags(pte) == flags && Frame(pte) in pages && pages[Frame(pte)] == Fill(0)
  }

  /** The page behind an owned leaf entry keeps its contents. */
  lemma FrameKept(pages: Pages, pages': Pages, roots: set<nat>, owner: map<nat, Slot>, held: set<nat>, r: nat, v: nat)
    requires TreesOk(pages, roots, owner) && SameData(pages, pages', owner, held) && r in roots && v < Width(LEVELS)
    requires LeafAt(pages, r, v) != 0 && !Kept(v)
    ensures var q := Frame(LeafAt(pages, r, v)); q in pages && q in pages' && pages'[q] == pages[q]
  {
    assert InTree(roots, Slot(r, LEVELS, v)) && SlotOk(pages, owner, Slot(r, LEVELS, v));
  }

  lemma GrownStep(pages: Pages, pages1: Pages, pages2: Pages, roots: set<nat>, owner: map<nat, Slot>, held: set<nat>,
                  root: nat, lo: nat, v: nat, q: nat, flags: nat)
    requires Grown(pages, pages1, roots, root, lo, v, flags) && lo <= v && TreesOk(pages1, roots, owner)
    requires LeafChanged(pages1, pages2, roots, root, v, MakePte(q, flags)) && SameData(pages1, pages2, owner, held)
    requires flags < 1024 && Present(flags) && q in pages2 && pages2[q] == Fill(0)
    requires forall w: nat :: lo <= w < v ==> !Kept(w)
    ensures Grown(pages, pages2, roots, root, lo, v + 1, flags)
  {
    PteFrame(q, flags);
    forall r, w: nat | r in roots && w < Width(LEVELS)
      ensures if r == root && lo <= w < v + 1 then ZeroPage(pages2, LeafAt(pages2, r, w), flags)
              else LeafAt(pages2, r, w) == LeafAt(pages, r, w)
    {
      if r == root && w == v {
        assert LeafAt(pages2, r, w) == MakePte(q, flags);
      } else {
        assert LeafAt(pages2, r, w) == LeafAt(pages1, r, w);
        if r == root && lo <= w < v {
          assert ZeroPage(pages1, LeafAt(pages1, r, w), flags);
          FrameKept(pages1, pages2, roots, owner, held, r, w);
        }
      }
    }
  }

  lemma GrownSame(pages: Pages, pages1: Pages, pages2: Pages, roots: set<nat>, owner: map<nat, Slot>, held: set<nat>,
                  root: nat, lo: nat, v: nat, flags: nat)
    requires Grown(pages, pages1, roots, root, lo, v, flags) && TreesOk(pages1, roots, owner)
    requires SameLeaves(pages1, pages2, roots) && SameData(pages1, pages2, owner, held)
    requires forall w: nat :: lo <= w < v ==> !Kept(w)
    ensures Grown(pages, pages2, roots, root, lo, v, flags)
  {
    forall r, w: nat | r in roots && w < Width(LEVELS)
      ensures if r == root && lo <= w < v then ZeroPage(pages2, LeafAt(pages2, r, w), flags)
              else LeafAt(pages2, r, w) == LeafAt(pages, r, w)
    {
      assert LeafAt(pages2, r, w) == LeafAt(pages1, r, w);
      if r == root && lo <= w < v {
        assert ZeroPage(pages1, LeafAt(pages1, r, w), flags);
        FrameKept(pages1, pages2, roots, owner, held, r, w);
      }
    }
  }

  /** Unmapping what was added restores the leaf entries. */
  lemma ShrinkBack(pages: Pages, pages1: Pages, pages2: Pages, roots: set<nat>, root: nat, lo: nat, hi: nat, flags: nat)
    requires Grown(pages, pages1, roots, root, lo, hi, flags) && Unmapped(pages1, pages2, roots, root, lo, hi)
    requires forall v: nat :: lo <= v < hi ==> LeafAt(pages, root, v) == 0
    ensures SameLeaves(pages, pages2, roots)
  {
    forall r, v: nat | r in roots && v < Width(LEVELS) ensures LeafAt(pages2, r, v) == LeafAt(pages, r, v) {
      assert LeafAt(pages2, r, v) == if r == root && lo <= v < hi then 0 else LeafAt(pages1, r, v);
    }
  }

  lemma SameLeavesTrans(pages: Pages, pages1: Pages, pages2: Pages, roots: set<nat>)
    requires SameLeaves(pages, pages1, roots) && SameLeaves(pages1, pages2, roots)
    ensures SameLeaves(pages, pages2, roots)
  {
    forall r, v: nat | r in roots && v < Width(LEVELS) ensures LeafAt(pages2, r, v) == LeafAt(pages, r, v) {
      assert LeafAt(pages1, r, v) == LeafAt(pages, r, v);
    }
  }

  // ----- copying a tree -----

  /** f maps a page of its own with the flags and the contents of the page e maps. */
  ghost predicate CopyOf(pages: Pages, e: nat, f: nat) {
    && Present(f) && Flags(f) == Flags(e) && Frame(f) != Frame(e) && Frame(e) in pages && Frame(f) in pages
    && pages[Frame(f)] == pages[Frame(e)]
  }

  /** Pages below hi that tree src maps are mapped by tree dst to copies; the other
      leaf entries are as before. */
  ghost predicate Copied(pages: Pages, pages': Pages, roots: set<nat>, src: nat, dst: nat, hi: nat) {
    forall r, v: nat :: r in roots && v < Width(LEVELS) ==>
      if r == dst && v < hi && LeafAt(pages, src, v) != 0 then CopyOf(pages', LeafAt(pages, src, v),
          LeafAt(pages', dst, v))
      else LeafAt(pages', r, v) == LeafAt(pages, r, v)
  }

  lemma CopyOfKept(pages: Pages, pages': Pages, roots: set<nat>, owner: map<nat, Slot>, held: set<nat>,
                   src: nat, dst: nat, v: nat, f: nat)
    requires TreesOk(pages, roots, owner) && SameData(pages, pages', owner, held) && src in roots && dst in roots
    requires v < Width(LEVELS) && !Kept(v) && LeafAt(pages, src, v) != 0 && LeafAt(pages, dst, v) == f
    requires CopyOf(pages, LeafAt(pages, src, v), f)
    ensures CopyOf(pages', LeafAt(pages, src, v), f)
  {
    FrameKept(pages, pages', roots, owner, held, src, v);
    FrameKept(pages, pages', roots, owner, held, dst, v);
  }

  lemma CopiedStep(pages: Pages, pages1: Pages, pages2: Pages, roots: set<nat>, owner: map<nat, Slot>, held: set<nat>,
                   src: nat, dst: nat, v: nat)
    requires Copied(pages, pages1, roots, src, dst, v)
    requires TreesOk(pages1, roots, owner) && SameData(pages1, pages2, owner, held)
    requires src in roots && dst in roots && src != dst && v < TRAPFRAME
    requires forall r, w: nat :: r in roots && w < Width(LEVELS) && !(r == dst && w == v) ==>
               LeafAt(pages2, r, w) == LeafAt(pages1, r, w)
    requires if LeafAt(pages, src, v) == 0 then LeafAt(pages2, dst, v) == LeafAt(pages1, dst, v)
             else CopyOf(pages2, LeafAt(pages, src, v), LeafAt(pages2, dst, v))
    ensures Copied(pages, pages2, roots, src, dst, v + 1)
  {
    forall r, w: nat | r in roots && w < Width(LEVELS)
      ensures if r == dst && w < v + 1 && LeafAt(pages, src, w) != 0
              then CopyOf(pages2, LeafAt(pages, src, w), LeafAt(pages2, dst, w))
              else LeafAt(pages2, r, w) == LeafAt(pages, r, w)
    {
      if !(r == dst && w == v) {
        assert LeafAt(pages2, r, w) == LeafAt(pages1, r, w);
        if r == dst && w < v && LeafAt(pages, src, w) != 0 {
          assert LeafAt(pages1, src, w) == LeafAt(pages, src, w);
          assert CopyOf(pages1, LeafAt(pages, src, w), LeafAt(pages1, dst, w));
          CopyOfKept(pages1, pages2, roots, owner, held, src, dst, w, LeafAt(pages1, dst, w));
        }
      }
    }
  }

  lemma CopiedSame(pages: Pages, pages1: Pages, pages2: Pages, roots: set<nat>, owner: map<nat, Slot>, held: set<nat>,
                   src: nat, dst: nat, v: nat)
    requires Copied(pages, pages1, roots, src, dst, v)
    requires TreesOk(pages1, roots, owner) && SameData(pages1, pages2, owner, held)
    requires src in roots && dst in roots && src != dst && v < TRAPFRAME
    requires forall r, w: nat :: r in roots && w < Width(LEVELS) && !(r == dst && w == v) ==>
               LeafAt(pages2, r, w) == LeafAt(pages1, r, w)
    requires LeafAt(pages2, dst, v) == LeafAt(pages1, dst, v)
    ensures Copied(pages, pages2, roots, src, dst, v)
  {
    forall r, w: nat | r in roots && w < Width(LEVELS)
      ensures if r == dst && w < v && LeafAt(pages, src, w) != 0
              then CopyOf(pages2, LeafAt(pages, src, w), LeafAt(pages2, dst, w))
              else LeafAt(pages2, r, w) == LeafAt(pages, r, w)
    {
      assert LeafAt(pages2, r, w) == LeafAt(pages1, r, w);
      if r == dst && w < v && LeafAt(pages, src, w) != 0 {
        assert LeafAt(pages1, src, w) == LeafAt(pages, src, w);
        assert CopyOf(pages1, LeafAt(pages, src, w), LeafAt(pages1, dst, w));
        CopyOfKept(pages1, pages2, roots, owner, held, src, dst, w, LeafAt(pages1, dst, w));
      }
    }
  }

  /** Unmapping the copies restores the leaf entries. */
  lemma UncopyBack(pages: Pages, pages1: Pages, pages2: Pages, roots: set<nat>, src: nat, dst: nat, hi: nat)
    requires Copied(pages, pages1, roots, src, dst, hi) && Unmapped(pages1, pages2, roots, dst, 0, hi)
    requires forall v: nat :: v < hi ==> LeafAt(pages, dst, v) == 0
    ensures SameLeaves(pages, pages2, roots)
  {
    forall r, v: nat | r in roots && v < Width(LEVELS) ensures LeafAt(pages2, r, v) == LeafAt(pages, r, v) {
      assert LeafAt(pages2, r, v) == if r == dst && 0 <= v < hi then 0 else LeafAt(pages1, r, v);
    }
  }

  /** Pages lo .. hi of one tree are mapped to consecutive frames from ppn; the other
      leaf entries are as before. */
  ghost predicate MappedTo(pages: Pages, pages': Pages, roots: set<nat>, root: nat, lo: nat, hi: nat, ppn: nat,
      flags: nat) {
    forall r, v: nat :: r in roots && v < Width(LEVELS) ==>
      LeafAt(pages', r, v) == if r == root && lo <= v < hi then MakePte(ppn + (v - lo), flags) else LeafAt(pages, r, v)
  }

  lemma MappedStep(pages: Pages, pages1: Pages, pages2: Pages, roots: set<nat>, root: nat, lo: nat, v: nat, ppn: nat,
                   flags: nat)
    requires MappedTo(pages, pages1, roots, root, lo, v, ppn, flags) && lo <= v
    requires LeafChanged(pages1, pages2, roots, root, v, MakePte(ppn + (v - lo), flags))
    ensures MappedTo(pages, pages2, roots, root, lo, v + 1, ppn, flags)
  {
    forall r, w: nat | r in roots && w < Width(LEVELS)
      ensures LeafAt(pages2, r, w) == if r == root && lo <= w < v + 1 then MakePte(ppn + (w - lo), flags)
          else LeafAt(pages, r, w)
    {
      assert LeafAt(pages1, r, w) == if r == root && lo <= w < v then MakePte(ppn + (w - lo), flags)
          else LeafAt(pages, r, w);
    }
  }

  lemma MappedSame(pages: Pages, pages1: Pages, pages2: Pages, roots: set<nat>, root: nat, lo: nat, v: nat, ppn: nat,
                   flags: nat)
    requires MappedTo(pages, pages1, roots, root, lo, v, ppn, flags) && SameLeaves(pages1, pages2, roots)
    ensures MappedTo(pages, pages2, roots, root, lo, v, ppn, flags)
  {
    forall r, w: nat | r in roots && w < Width(LEVELS)
      ensures LeafAt(pages2, r, w) == if r == root && lo <= w < v then MakePte(ppn + (w - lo), flags)
          else LeafAt(pages, r, w)
    {
      assert LeafAt(pages2, r, w) == LeafAt(pages1, r, w);
    }
  }
}
