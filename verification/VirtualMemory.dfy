/** kernel/vm.c and kernel/kalloc.c: page tables and the pages behind them. */
module VirtualMemory {
  import opened Common
  import opened PageTables
  import opened PageTrees
  import opened PagePool
  import opened PageFree
  import opened UserMemory

  class Vm {
    var pages: Pages             // managed physical pages
    var freelist: seq<nat>       // kmem.freelist, head first
    ghost var roots: set<nat>    // user page tables
    ghost var owner: map<nat, Slot>
    ghost var held: set<nat>     // pages in use by other kernel code

    ghost predicate Valid()
      reads this
    {
      TreesOk(pages, roots, owner) && PoolOk(pages, freelist, owner, held)
    }

    /** kinit: freerange hands every whole page between two addresses to kfree. */
    constructor (start: nat, end: nat)
      requires 0 < start <= end
      ensures Valid() && roots == {} && owner == map[] && held == {}
      ensures forall p: nat :: p in freelist <==> start <= p * PGSIZE && (p + 1) * PGSIZE <= end
    {
      var p: nat, ps: Pages, free: seq<nat> := PagesFor(start), map[], [];
      ghost var lo := p;
      while (p + 1) * PGSIZE <= end
        invariant lo <= p && |free| == p - lo
        invariant forall q: nat :: q in ps <==> lo <= q < p
        invariant forall i: nat :: i < |free| ==> free[i] == p - 1 - i
        invariant forall q :: q in ps ==> ps[q] == Fill(1)
        invariant p == lo || p * PGSIZE <= end
      {
        ps := ps[p := Fill(1)];
        free := [p] + free;
        p := p + 1;
      }
      pages, freelist := ps, free;
      roots, owner, held := {}, map[], {};
      new;
      FreshPool(pages, freelist, lo, p);
      forall q: nat
        ensures q in freelist <==> start <= q * PGSIZE && (q + 1) * PGSIZE <= end
      {
        RoundedUp(start, q);
        assert q < p <==> (q + 1) * PGSIZE <= end || q < lo;
      }
    }

    /** kalloc: the head of the free list, or 0. */
    method Kalloc() returns (r: nat)
      requires Valid()
      modifies this`pages, this`freelist, this`held
      ensures Valid() && (r == 0 <==> old(freelist) == [])
      ensures r == 0 ==> pages == old(pages) && freelist == old(freelist) && held == old(held)
      ensures r != 0 ==>
        && freelist == old(freelist)[1..] && r == old(freelist)[0] && held == old(held) + {r} && r !in old(held)
        && pages == old(pages)[r := Fill(5)] && r !in owner
      ensures SameLeaves(old(pages), pages, roots) && SameData(old(pages), pages, owner, old(held))
      ensures SameBytes(old(pages), pages, roots)
    {
      if freelist == [] { return 0; }
      r := freelist[0];
      assert r in freelist;
      ghost var before := pages;
      freelist := freelist[1..];
      pages := pages[r := Fill(5)];
      held := held + {r};
      DataWrite(before, pages, roots, owner);
      LeavesOf(before, pages, roots);
      SameLeavesBytes(before, pages, roots, owner, old(held));
    }

    /** kfree: the page becomes the head of the free list. */
    method Kfree(p: nat)
      requires p in pages
      modifies this`pages, this`freelist
      ensures freelist == [p] + old(freelist) && pages == old(pages)[p := Fill(1)]
    {
      pages := pages[p := Fill(1)];
      freelist := [p] + freelist;
    }

    /** kfree of a page that no tree owns. */
    method FreePage(p: nat)
      requires Valid() && p in held
      modifies this`pages, this`freelist, this`held
      ensures Valid() && held == old(held) - {p} && freelist == [p] + old(freelist)
      ensures p in old(pages) && pages == old(pages)[p := Fill(1)] && SameLeaves(old(pages), pages, roots)
      ensures SameBytes(old(pages), pages, roots)
    {
      ghost var pages0 := pages;
      FreeHeld(pages, freelist, roots, owner, held, p);
      Kfree(p);
      held := held - {p};
      RemainingBytes(pages0, pages, roots, owner, held);
    }

    /** One level of walk: from table p to the table its entry i points to. */
    method WalkStep(p: nat, i: nat, alloc: bool) returns (q: nat)
      requires Valid() && p in owner && owner[p].d < LEVELS - 1 && IsTable(pages, owner, p, owner[p].d) && i < FANOUT
      modifies this`pages, this`freelist, this`owner, this`held
      ensures Valid() && held == old(held) && MoreTables(old(pages), pages, roots, old(owner), owner, held)
      ensures Gains(old(owner), owner, old(owner)[p].root)
      ensures q != 0 ==> IsTable(pages, owner, q, old(owner)[p].d + 1) && owner[q] == Child(old(owner)[p], i)
      ensures !alloc ==> pages == old(pages) && owner == old(owner) && freelist == old(freelist)
      ensures q == 0 ==> pages == old(pages) && pages[p].ptes[i] == 0 && (alloc ==> freelist == [])
      ensures |old(freelist)| <= |freelist| + 1 && (q == 0 ==> freelist == old(freelist))
    {
      var pte := pages[p].ptes[i];
      TableInTree(pages, roots, owner, p, i);
      EntryInTable(pages, roots, owner, p, i);
      assert SlotOk(pages, owner, Child(owner[p], i));
      if Present(pte) { return Frame(pte); }
      if !alloc { return 0; }
      q := AddTable(p, i);
    }

    /** A new page-table page for an empty entry, or 0. */
    method AddTable(p: nat, i: nat) returns (q: nat)
      requires Valid() && p in owner && owner[p].d < LEVELS - 1 && IsTable(pages, owner, p, owner[p].d) && i < FANOUT
      requires pages[p].ptes[i] == 0
      modifies this`pages, this`freelist, this`owner, this`held
      ensures Valid() && held == old(held) && MoreTables(old(pages), pages, roots, old(owner), owner, held)
      ensures Gains(old(owner), owner, old(owner)[p].root)
      ensures q != 0 ==> IsTable(pages, owner, q, old(owner)[p].d + 1) && owner[q] == Child(old(owner)[p], i)
      ensures q == 0 ==> pages == old(pages) && freelist == []
      ensures |old(freelist)| <= |freelist| + 1 && (q == 0 ==> freelist == old(freelist))
    {
      ghost var pages0 := pages;
      q := Kalloc();
      if q == 0 { return 0; }
      ghost var pages1, owner1 := pages, owner;
      LinkHeld(pages, freelist, roots, owner, held, p, i, q);
      pages := SetPte(pages, p, i, MakePte(q, PTE_V))[q := ZERO_TABLE];
      owner := owner[q := Child(owner[p], i)];
      held := held - {q};
      MoreTablesTrans(pages0, pages1, pages, roots, owner1, owner1, owner, held);
    }

    /** One round of walk's loop, along the path to vpn. */
    method WalkLevel(root: nat, vpn: nat, d: nat, p: nat, alloc: bool) returns (q: nat)
      requires Valid() && root in roots && vpn < MAXVPN && d < LEVELS - 1 && OnLevel(pages, owner, root, vpn, d, p)
      modifies this`pages, this`freelist, this`owner, this`held
      ensures Valid() && held == old(held) && MoreTables(old(pages), pages, roots, old(owner), owner, held)
      ensures Gains(old(owner), owner, root)
      ensures q != 0 ==> OnLevel(pages, owner, root, vpn, d + 1, q)
      ensures !alloc ==> pages == old(pages) && owner == old(owner) && freelist == old(freelist)
      ensures q == 0 ==> LeafAt(pages, root, vpn) == 0 && (alloc ==> freelist == [])
      ensures |old(freelist)| <= |freelist| + 1 && (q == 0 ==> freelist == old(freelist))
    {
      PathIndex(vpn, d);
      var i := PX(LEVELS - 1 - d, vpn);
      EntryInTable(pages, roots, owner, p, i);
      q := WalkStep(p, i, alloc);
      if q == 0 { DeadEnd(pages, root, vpn, d + 1); }
    }

    /** walk: the last-level table that holds the PTE of vpn, or 0. */
    method Walk(root: nat, vpn: nat, alloc: bool) returns (p: nat)
      requires Valid() && root in roots && vpn < MAXVPN
      modifies this`pages, this`freelist, this`owner, this`held
      ensures Valid() && held == old(held) && MoreTables(old(pages), pages, roots, old(owner), owner, held)
      ensures Gains(old(owner), owner, root)
      ensures p != 0 ==>
        IsTable(pages, owner, p, LEVELS - 1) && owner[p] == Slot(root, LEVELS - 1, OnPath(vpn, LEVELS - 1))
      ensures !alloc ==> pages == old(pages) && owner == old(owner) && freelist == old(freelist)
      ensures p == 0 ==> LeafAt(pages, root, vpn) == 0 && (alloc ==> freelist == [])
      ensures |old(freelist)| <= |freelist| + (LEVELS - 1) && (alloc && p == 0 ==> |old(freelist)| < LEVELS - 1)
    {
      p := root;
      ghost var pages0, owner0, free0 := pages, owner, freelist;
      MoreTablesRefl(pages, roots, owner, held);
      RootLevel(pages, roots, owner, root, vpn);
      var d := 0;
      while d < LEVELS - 1
        invariant d <= LEVELS - 1 && Valid() && held == old(held)
        invariant MoreTables(pages0, pages, roots, owner0, owner, held) && Gains(owner0, owner, root)
        invariant OnLevel(pages, owner, root, vpn, d, p) && |old(freelist)| <= |freelist| + d
        invariant !alloc ==> pages == pages0 && owner == owner0 && freelist == free0
      {
        ghost var pages1, owner1 := pages, owner;
        var q := WalkLevel(root, vpn, d, p, alloc);
        MoreTablesTrans(pages0, pages1, pages, roots, owner0, owner1, owner, held);
        GainsTrans(owner0, owner1, owner, root);
        if q == 0 { return 0; }
        p, d := q, d + 1;
      }
    }

    // ----- mappages and uvmunmap, one page at a time -----

    /** Stores the leaf entry of vpn in its table p. */
    method SetLeaf(root: nat, vpn: nat, p: nat, ppn: nat, flags: nat)
      requires Valid() && vpn < MAXVPN && LeafAt(pages, root, vpn) == 0
      requires OnLevel(pages, owner, root, vpn, LEVELS - 1, p)
      requires flags < 1024 && Present(flags) && IsLeaf(flags)
      requires if Kept(vpn) then !IsUser(flags) else ppn in held && ppn in pages && pages[ppn].Data?
      modifies this`pages, this`owner, this`held
      ensures Valid() && LeafChanged(old(pages), pages, roots, root, vpn, MakePte(ppn, flags))
      ensures SameData(old(pages), pages, old(owner), old(held))
      ensures owner == MapOwner(old(owner), Slot(root, LEVELS, vpn), ppn)
      ensures held == if Kept(vpn) then old(held) else old(held) - {ppn}
    {
      MapHeld(pages, freelist, roots, owner, held, root, vpn, p, ppn, flags);
      pages := SetPte(pages, p, PX(0, vpn), MakePte(ppn, flags));
      owner := MapOwner(owner, Slot(root, LEVELS, vpn), ppn);
      if !Kept(vpn) { held := held - {ppn}; }
    }

    /** One round of mappages. Mapping a page twice is a panic. */
    method MapOne(root: nat, vpn: nat, ppn: nat, flags: nat) returns (ok: bool)
      requires Valid() && root in roots && vpn < MAXVPN && LeafAt(pages, root, vpn) == 0
      requires flags < 1024 && Present(flags) && IsLeaf(flags)
      requires if Kept(vpn) then !IsUser(flags) else ppn in held && ppn in pages && pages[ppn].Data?
      modifies this`pages, this`freelist, this`owner, this`held
      ensures Valid() && SameData(old(pages), pages, old(owner), old(held)) && Gains(old(owner), owner, root)
      ensures ok ==> LeafChanged(old(pages), pages, roots, root, vpn, MakePte(ppn, flags))
      ensures ok ==> held == if Kept(vpn) then old(held) else old(held) - {ppn}
      ensures !ok ==> SameLeaves(old(pages), pages, roots) && held == old(held) && freelist == []
      ensures |old(freelist)| <= |freelist| + (LEVELS - 1) && (!ok ==> |old(freelist)| < LEVELS - 1)
    {
      ghost var pages0, owner0 := pages, owner;
      var p := Walk(root, vpn, true);
      if p == 0 { return false; }
      ghost var pages1, owner1 := pages, owner;
      assert LeafAt(pages1, root, vpn) == 0 by { LeafInTable(pages, roots, owner, root, vpn, p); }
      SetLeaf(root, vpn, p, ppn, flags);
      LeafChangedAfter(pages0, pages1, pages, roots, root, vpn, MakePte(ppn, flags));
      MappedGains(owner0, owner1, owner, Slot(root, LEVELS, vpn), ppn);
      SameDataTrans(pages0, pages1, pages, owner0, owner1, old(held));
      return true;
    }

    /** mappages for user pages: npages pages from vpn to the frames from ppn. If walk runs
        out of memory the first part stays mapped, up to page done. */
    method Mappages(root: nat, vpn: nat, npages: nat, ppn: nat, flags: nat) returns (r: int, ghost done: nat)
      requires Valid() && root in roots && npages > 0 && vpn + npages <= TRAPFRAME
      requires flags < 1024 && Present(flags) && IsLeaf(flags)
      requires forall v: nat :: vpn <= v < vpn + npages ==> LeafAt(pages, root, v) == 0
      requires forall q: nat :: ppn <= q < ppn + npages ==> q in held && q in pages && pages[q].Data?
      modifies this`pages, this`freelist, this`owner, this`held
      ensures Valid() && (r == 0 || r == -1) && vpn <= done <= vpn + npages && (r == 0 <==> done == vpn + npages)
      ensures MappedUpTo(old(pages), pages, roots, root, vpn, done, ppn, flags)
      ensures forall q :: q in held <==> q in old(held) && !(ppn <= q < ppn + (done - vpn))
      ensures |old(freelist)| >= (LEVELS - 1) * npages ==> r == 0
    {
      ghost var pages0 := pages;
      var a := vpn;
      while a < vpn + npages
        invariant vpn <= a <= vpn + npages && Valid() && MappedUpTo(pages0, pages, roots, root, vpn, a, ppn, flags)
        invariant forall q :: q in held <==> q in old(held) && !(ppn <= q < ppn + (a - vpn))
        invariant FramesWait(pages0, pages, held, ppn + (a - vpn), ppn + npages)
        invariant |old(freelist)| <= |freelist| + (LEVELS - 1) * (a - vpn)
      {
        ghost var pages1, owner1, held1 := pages, owner, held;
        InWidth(a);
        assert LeafAt(pages1, root, a) == LeafAt(pages0, root, a);
        var q := ppn + (a - vpn);
        var ok := MapOne(root, a, q, flags);
        if !ok {
          MappedStop(pages0, pages1, pages, roots, owner1, held1, root, vpn, a, ppn, flags);
          return -1, a;
        }
        MappedNext(pages0, pages1, pages, roots, owner1, held1, root, vpn, a, ppn, flags, q);
        a := a + 1;
      }
      return 0, a;
    }

    /** One round of uvmunmap. */
    method UnmapOne(root: nat, v: nat, doFree: bool)
      requires Valid() && root in roots && v < MAXVPN && doFree == !Kept(v)
      modifies this`pages, this`freelist, this`owner, this`held
      ensures Valid() && held == old(held) && SameData(old(pages), pages, owner, held)
      ensures LeafChanged(old(pages), pages, roots, root, v, 0) && Released(old(owner), owner, root, v, v + 1)
    {
      if LeafAt(pages, root, v) == 0 || Kept(v) { Untouched(pages, roots, owner, root, v); }
      var p := Walk(root, v, false);
      if p == 0 { return; }
      LeafInTable(pages, roots, owner, root, v, p);
      var pte := pages[p].ptes[PX(0, v)];
      assert SlotOk(pages, owner, Slot(root, LEVELS, v));
      if !Present(pte) { return; }
      ClearLeaf(root, v, p, doFree);
    }

    /** Clears the leaf entry of v in its table p, and frees the page behind it if doFree. */
    method ClearLeaf(root: nat, v: nat, p: nat, doFree: bool)
      requires Valid() && root in roots && v < MAXVPN && doFree == !Kept(v) && LeafAt(pages, root, v) != 0
      requires OnLevel(pages, owner, root, v, LEVELS - 1, p)
      modifies this`pages, this`freelist, this`owner, this`held
      ensures Valid() && held == old(held) && SameData(old(pages), pages, owner, held)
      ensures LeafChanged(old(pages), pages, roots, root, v, 0) && Released(old(owner), owner, root, v, v + 1)
    {
      LeafInTable(pages, roots, owner, root, v, p);
      assert SlotOk(pages, owner, Slot(root, LEVELS, v));
      var pte := pages[p].ptes[PX(0, v)];
      if doFree {
        UnmapFree(pages, freelist, roots, owner, held, root, v, p);
        Kfree(Frame(pte));
        owner := owner - {Frame(pte)};
      } else {
        Untouched(pages, roots, owner, root, v);
        UnmapOwned(pages, freelist, roots, owner, held, root, v, p);
      }
      pages := SetPte(pages, p, PX(0, v), 0);
    }

    /** uvmunmap: removes the mappings of npages pages, with their memory if doFree. */
    method Uvmunmap(root: nat, lo: nat, npages: nat, doFree: bool)
      requires Valid() && root in roots && lo + npages <= MAXVPN
      requires forall v: nat :: lo <= v < lo + npages ==> doFree == !Kept(v)
      modifies this`pages, this`freelist, this`owner, this`held
      ensures Valid() && held == old(held) && SameData(old(pages), pages, owner, held)
      ensures Unmapped(old(pages), pages, roots, root, lo, lo + npages)
      ensures Released(old(owner), owner, root, lo, lo + npages)
      ensures Cleared(old(pages), pages, roots, root, lo, lo + npages)
    {
      ghost var pages0, owner0 := pages, owner;
      var a := lo;
      while a < lo + npages
        invariant lo <= a <= lo + npages && Valid() && held == old(held) && SameData(pages0, pages, owner, held)
        invariant Unmapped(pages0, pages, roots, root, lo, a) && Released(owner0, owner, root, lo, a)
      {
        ghost var pages1, owner1 := pages, owner;
        UnmapOne(root, a, doFree);
        UnmappedStep(pages0, pages1, pages, roots, root, lo, a);
        ReleasedStep(owner0, owner1, owner, root, lo, a);
        a := a + 1;
      }
      UnmappedBytes(pages0, pages, roots, owner, held, root, lo, a);
    }

    // ----- growing and shrinking -----

    /** A fresh page with the given contents, mapped at vpn; on failure it goes back. */
    method AddPage(root: nat, vpn: nat, flags: nat, content: Page) returns (mem: nat)
      requires Valid() && root in roots && vpn < MAXVPN && !Kept(vpn) && LeafAt(pages, root, vpn) == 0
      requires flags < 1024 && Present(flags) && IsLeaf(flags) && content.Data? && PageOk(content)
      modifies this`pages, this`freelist, this`owner, this`held
      ensures Valid() && held == old(held) && SameData(old(pages), pages, old(owner), held)
      ensures Gains(old(owner), owner, root)
      ensures mem != 0 ==> LeafChanged(old(pages), pages, roots, root, vpn, MakePte(mem, flags))
                           && mem in pages && pages[mem] == content && mem !in old(owner)
      ensures mem == 0 ==> SameLeaves(old(pages), pages, roots)
      ensures |old(freelist)| <= |freelist| + LEVELS && (mem == 0 ==> |old(freelist)| < LEVELS)
    {
      ghost var pages0 := pages;
      mem := Kalloc();
      if mem == 0 { return; }
      ghost var pages1 := pages;
      WriteHeld(pages, freelist, roots, owner, held, mem, content);
      pages := pages[mem := content];
      ghost var pages2, owner2 := pages, owner;
      SameLeavesTrans(pages0, pages1, pages2, roots);
      assert LeafAt(pages2, root, vpn) == 0;
      var ok := MapOne(root, vpn, mem, flags);
      if ok {
        LeafChangedAfter(pages0, pages2, pages, roots, root, vpn, MakePte(mem, flags));
      } else {
        SameLeavesTrans(pages0, pages2, pages, roots);
        ghost var pages3 := pages;
        FreeHeld(pages, freelist, roots, owner, held, mem);
        Kfree(mem);
        held := held - {mem};
        SameLeavesTrans(pages0, pages3, pages, roots);
        mem := 0;
      }
    }

    /** A fresh page of zeroes, which changes no byte. */
    method AddZeroPage(root: nat, vpn: nat, flags: nat) returns (mem: nat)
      requires Valid() && root in roots && vpn < MAXVPN && !Kept(vpn) && LeafAt(pages, root, vpn) == 0
      requires flags < 1024 && Present(flags) && IsLeaf(flags)
      modifies this`pages, this`freelist, this`owner, this`held
      ensures Valid() && held == old(held) && SameData(old(pages), pages, old(owner), held)
      ensures Gains(old(owner), owner, root) && SameBytes(old(pages), pages, roots)
      ensures mem != 0 ==> LeafChanged(old(pages), pages, roots, root, vpn, MakePte(mem, flags))
                           && mem in pages && pages[mem] == Fill(0)
      ensures mem == 0 ==> SameLeaves(old(pages), pages, roots)
      ensures |old(freelist)| <= |freelist| + LEVELS && (mem == 0 ==> |old(freelist)| < LEVELS)
    {
      ghost var pages0, owner0 := pages, owner;
      mem := AddPage(root, vpn, flags, Fill(0));
      if mem == 0 {
        SameLeavesBytes(pages0, pages, roots, owner0, held);
      } else {
        FaultBytes(pages0, pages, roots, owner0, held, root, vpn, mem, flags);
      }
    }

    /** uvmdealloc: shrinks to newsz bytes, if that is smaller. */
    method Uvmdealloc(root: nat, oldsz: nat, newsz: nat) returns (r: nat)
      requires Valid() && root in roots && PagesFor(oldsz) <= TRAPFRAME
      modifies this`pages, this`freelist, this`owner, this`held
      ensures Valid() && held == old(held) && SameData(old(pages), pages, owner, held)
      ensures r == if newsz < oldsz then newsz else oldsz
      ensures Elsewhere(old(owner), owner, root)
      ensures Unmapped(old(pages), pages, roots, root, PagesFor(r), PagesFor(oldsz))
      ensures Cleared(old(pages), pages, roots, root, PagesFor(r), PagesFor(oldsz))
    {
      if newsz >= oldsz { return oldsz; }
      if PagesFor(newsz) < PagesFor(oldsz) {
        ghost var owner0 := owner;
        Uvmunmap(root, PagesFor(newsz), PagesFor(oldsz) - PagesFor(newsz), true);
        ReleasedElsewhere(owner0, owner, root, PagesFor(newsz), PagesFor(newsz) + (PagesFor(oldsz) - PagesFor(newsz)));
      }
      return newsz;
    }

    /** uvmalloc: grows to newsz bytes; if memory runs out the leaf entries are as before. */
    method Uvmalloc(root: nat, oldsz: nat, newsz: nat, xperm: nat) returns (r: nat)
      requires Valid() && root in roots && PagesFor(newsz) <= TRAPFRAME && xperm in {0, PTE_W, PTE_X, PTE_W + PTE_X}
      requires forall v: nat :: PagesFor(oldsz) <= v < PagesFor(newsz) ==> LeafAt(pages, root, v) == 0
      modifies this`pages, this`freelist, this`owner, this`held
      ensures Valid() && held == old(held) && Elsewhere(old(owner), owner, root)
      ensures r == newsz || r == 0 || (newsz < oldsz && r == oldsz)
      ensures newsz < oldsz ==> pages == old(pages) && freelist == old(freelist)
      ensures newsz >= oldsz && r == newsz > 0 ==>
                Grown(old(pages), pages, roots, root, PagesFor(oldsz), PagesFor(newsz), PTE_V + PTE_R + PTE_U + xperm)
      ensures newsz >= oldsz && r != newsz ==> SameLeaves(old(pages), pages, roots)
      ensures SameBytes(old(pages), pages, roots)  // the new pages read as zero, as the missing ones did
      ensures newsz >= oldsz && |old(freelist)| >= LEVELS * (PagesFor(newsz) - PagesFor(oldsz)) ==> r == newsz
    {
      if newsz < oldsz { return oldsz; }
      ghost var pages0 := pages;
      var lo, flags := PagesFor(oldsz), PTE_V + PTE_R + PTE_U + xperm;
      var a := lo;
      while a < PagesFor(newsz)
        invariant lo <= a && (a <= PagesFor(newsz) || a == lo) && Valid() && held == old(held)
        invariant Elsewhere(old(owner), owner, root) && GrownUpTo(pages0, pages, roots, root, lo, a, flags)
        invariant |old(freelist)| <= |freelist| + LEVELS * (a - lo)
      {
        ghost var pages1, owner1 := pages, owner;
        assert LeafAt(pages, root, a) == 0 by { InWidth(a); }
        var mem := AddZeroPage(root, a, flags);
        GainsSame(owner1, owner, root);
        if mem == 0 {
          GrownStop(pages0, pages1, pages, roots, owner1, held, root, lo, a, flags);
          ghost var pages2 := pages;
          WholePages(a);
          WholePages(lo);
          var _ := Uvmdealloc(root, a * PGSIZE, lo * PGSIZE);
          GrownBack(pages0, pages2, pages, roots, root, lo, a, flags);
          return 0;
        }
        GrownNext(pages0, pages1, pages, roots, owner1, held, root, lo, a, mem, flags);
        a := a + 1;
      }
      return newsz;
    }

    /** One round of uvmcopy: page v of tree src, if it is there, copied into tree dst. */
    method CopyOne(src: nat, dst: nat, v: nat) returns (ok: bool)
      requires Valid() && src in roots && dst in roots && src != dst && v < TRAPFRAME && LeafAt(pages, dst, v) == 0
      modifies this`pages, this`freelist, this`owner, this`held
      ensures Valid() && held == old(held) && SameData(old(pages), pages, old(owner), held)
      ensures Gains(old(owner), owner, dst)
      ensures OneLeaf(old(pages), pages, roots, dst, v)
      ensures !ok ==> LeafAt(pages, dst, v) == 0
      ensures ok ==> if LeafAt(old(pages), src, v) == 0 then LeafAt(pages, dst, v) == 0
                     else CopyOf(pages, LeafAt(old(pages), src, v), LeafAt(pages, dst, v))
      ensures |old(freelist)| <= |freelist| + LEVELS && (!ok ==> |old(freelist)| < LEVELS)
    {
      InWidth(v);
      var p := Walk(src, v, false);
      if p == 0 { return true; }
      LeafInTable(pages, roots, owner, src, v, p);
      var pte := pages[p].ptes[PX(0, v)];
      assert SlotOk(pages, owner, Slot(src, LEVELS, v));
      if !Present(pte) { return true; }
      ghost var pages0, owner0 := pages, owner;
      FlagBits(pte);
      var mem := AddPage(dst, v, Flags(pte), pages[Frame(pte)]);
      if mem == 0 { return false; }
      FrameKept(pages0, pages, roots, owner0, held, src, v);
      PteFrame(mem, Flags(pte));
      return true;
    }

    /** uvmcopy: copies the pages below sz of tree src into tree dst; if memory runs out
        the leaf entries are as before. */
    method Uvmcopy(src: nat, dst: nat, sz: nat) returns (r: int)
      requires Valid() && src in roots && dst in roots && src != dst && PagesFor(sz) <= TRAPFRAME
      requires forall v: nat :: v < PagesFor(sz) ==> LeafAt(pages, dst, v) == 0
      modifies this`pages, this`freelist, this`owner, this`held
      ensures Valid() && held == old(held) && (r == 0 || r == -1) && Elsewhere(old(owner), owner, dst)
      ensures r == 0 ==> CopiedUpTo(old(pages), pages, roots, src, dst, PagesFor(sz))
      ensures r == -1 ==> SameLeaves(old(pages), pages, roots) && SameBytes(old(pages), pages, roots)
      ensures |old(freelist)| >= LEVELS * PagesFor(sz) ==> r == 0
    {
      ghost var pages0 := pages;
      var i := 0;
      while i < PagesFor(sz)
        invariant i <= PagesFor(sz) && Valid() && held == old(held) && Elsewhere(old(owner), owner, dst)
        invariant CopiedUpTo(pages0, pages, roots, src, dst, i) && |old(freelist)| <= |freelist| + LEVELS * i
      {
        ghost var pages1, owner1 := pages, owner;
        InWidth(i);
        assert LeafAt(pages1, dst, i) == LeafAt(pages0, dst, i);
        var ok := CopyOne(src, dst, i);
        GainsSame(owner1, owner, dst);
        if !ok {
          CopiedStop(pages0, pages1, pages, roots, owner1, held, src, dst, i);
          ghost var pages2, owner2 := pages, owner;
          Uvmunmap(dst, 0, i, true);
          ReleasedElsewhere(owner2, owner, dst, 0, 0 + i);
          CopiedBack(pages0, pages2, pages, roots, src, dst, i);
          return -1;
        }
        CopiedNext(pages0, pages1, pages, roots, owner1, held, src, dst, i);
        i := i + 1;
      }
      return 0;
    }

    // ----- giving up a tree -----

    /** The pages in ps are held and are as they were in pages0. */
    ghost predicate Intact(pages0: Pages, ps: set<nat>)
      reads this
    {
      forall q :: q in ps ==> q in held && q in pages && q in pages0 && pages[q] == pages0[q]
    }

    /** One round of freewalk's loop. */
    method FreeEntry(p: nat, i: nat, ghost pages0: Pages, ghost roots0: set<nat>, ghost owner0: map<nat, Slot>)
      requires Valid() && TreesOk(pages0, roots0, owner0) && p in owner0 && owner0[p].d < LEVELS && i < FANOUT
      requires IsTable(pages0, owner0, p, owner0[p].d) && NoLeaves(pages0, owner0[p].root)
      requires p in held && p in pages && pages[p].Table?
      requires |pages[p].ptes| == FANOUT && pages[p].ptes[i] == pages0[p].ptes[i]
      requires Intact(pages0, SubtreeOf(owner0, Child(owner0[p], i))) && p !in SubtreeOf(owner0, Child(owner0[p], i))
      modifies this`pages, this`freelist, this`held
      ensures Valid() && held == old(held) - SubtreeOf(owner0, Child(owner0[p], i)) && pages.Keys == old(pages).Keys
      ensures p in pages && pages[p] == Table(old(pages)[p].ptes[i := 0])
      ensures forall q :: q in pages && q != p && q !in SubtreeOf(owner0, Child(owner0[p], i)) ==>
          pages[q] == old(pages)[q]
      decreases LEVELS - owner0[p].d, 0
    {
      var pte := pages[p].ptes[i];
      InnerEntry(pages0, roots0, owner0, p, i);
      if Present(pte) && !IsLeaf(pte) {
        Freewalk(Frame(pte), pages0, roots0, owner0);
        WriteHeld(pages, freelist, roots, owner, held, p, Table(pages[p].ptes[i := 0]));
        pages := SetPte(pages, p, i, 0);
      } else {
        assert pages[p].ptes[i := 0] == pages[p].ptes;
      }
    }

    /** freewalk: frees the table p and all tables below it. pages0 is memory before the
        tree was given up; a leaf entry would be a panic. */
    method Freewalk(p: nat, ghost pages0: Pages, ghost roots0: set<nat>, ghost owner0: map<nat, Slot>)
      requires Valid() && TreesOk(pages0, roots0, owner0) && p in owner0 && owner0[p].d < LEVELS
      requires IsTable(pages0, owner0, p, owner0[p].d) && NoLeaves(pages0, owner0[p].root)
      requires Intact(pages0, SubtreeOf(owner0, owner0[p]))
      modifies this`pages, this`freelist, this`held
      ensures Valid() && held == old(held) - SubtreeOf(owner0, owner0[p]) && pages.Keys == old(pages).Keys
      ensures forall q :: q in pages && q !in SubtreeOf(owner0, owner0[p]) ==> pages[q] == old(pages)[q]
      decreases LEVELS - owner0[p].d, 1
    {
      ghost var s, was, held0 := owner0[p], pages, held;
      VisitedAll(pages0, roots0, owner0, p);
      var i := 0;
      while i < FANOUT
        invariant i <= FANOUT && Valid() && held == held0 - Visited(owner0, s.root, s.d, s.n, i) && p in held
        invariant Sweeping(was, pages, pages0, p, Visited(owner0, s.root, s.d, s.n, i), i)
      {
        ghost var mid, done, more := pages, Visited(owner0, s.root, s.d, s.n, i), SubtreeOf(owner0, Child(s, i));
        VisitedNext(owner0, s, i, held0, held, more);
        assert Intact(pages0, more);
        FreeEntry(p, i, pages0, roots0, owner0);
        SweepNext(was, mid, pages, pages0, p, done, more, i);
        i := i + 1;
      }
      FreePage(p);
    }

    /** freewalk on a whole tree. */
    method FreeTree(root: nat)
      requires Valid() && root in roots && NoLeaves(pages, root)
      modifies this
      ensures Valid() && held == old(held) && GaveUp(old(roots), roots, old(owner), owner, root)
      ensures SameLeaves(old(pages), pages, roots) && SameData(old(pages), pages, owner, held)
      ensures SameBytes(old(pages), pages, roots)
    {
      ghost var pages0, roots0, owner0, ps := pages, roots, owner, OwnedBy(owner, root);
      WholeTree(pages, roots, owner, root);
      assert Owns(pages, owner, Slot(root, 0, 0), root);
      DropRoot(pages, freelist, roots, owner, held, root);
      roots, owner, held := roots - {root}, owner - ps, held + ps;
      Freewalk(root, pages0, roots0, owner0);
      OtherTrees(pages0, pages, roots, owner);
      RemainingBytes(pages0, pages, roots, owner, held);
    }

    /** uvmfree: frees the user pages below sz, then the page-table pages. */
    method Uvmfree(root: nat, sz: nat)
      requires Valid() && root in roots && PagesFor(sz) <= TRAPFRAME
      requires forall v: nat :: PagesFor(sz) <= v < Width(LEVELS) ==> LeafAt(pages, root, v) == 0
      modifies this
      ensures Valid() && held == old(held) && GaveUp(old(roots), roots, old(owner), owner, root)
      ensures SameLeaves(old(pages), pages, roots) && SameData(old(pages), pages, owner, held)
      ensures SameBytes(old(pages), pages, roots)
    {
      ghost var pages0, roots0, owner0 := pages, roots, owner;
      if sz > 0 { Uvmunmap(root, 0, PagesFor(sz), true); }
      ghost var pages1, owner1 := pages, owner;
      assert NoLeaves(pages, root);
      FreeTree(root);
      GaveUpAfter(roots0, owner0, owner1, owner, root);
      RemainingBytes(pages0, pages, roots, owner, held);
    }

    // ----- the page table of a process (kernel/proc.c) -----

    /** uvmcreate: an empty page table, or 0. */
    method Uvmcreate() returns (root: nat)
      requires Valid()
      modifies this
      ensures Valid() && held == old(held)
      ensures root == 0 ==> roots == old(roots) && owner == old(owner) && pages == old(pages)
      ensures root != 0 ==> roots == old(roots) + {root} && root !in old(roots) && NoLeaves(pages, root)
                            && owner == old(owner)[root := Slot(root, 0, 0)] && root !in old(owner)
      ensures SameLeaves(old(pages), pages, old(roots)) && SameData(old(pages), pages, old(owner), held)
      ensures SameBytes(old(pages), pages, old(roots))
      ensures |old(freelist)| <= |freelist| + 1 && (root == 0 ==> old(freelist) == [])
    {
      ghost var pages0, roots0, owner0 := pages, roots, owner;
      root := Kalloc();
      if root == 0 { return; }
      ghost var pages1 := pages;
      NewRoot(pages, freelist, roots, owner, held, root);
      SameLeavesTrans(pages0, pages1, pages[root := ZERO_TABLE], roots);
      pages := pages[root := ZERO_TABLE];
      roots, owner, held := roots + {root}, owner[root := Slot(root, 0, 0)], held - {root};
      SameLeavesBytes(pages0, pages, roots0, owner0, held);
    }

    /** A mapping above user memory, which changes no byte. */
    method MapKernelPage(root: nat, vpn: nat, ppn: nat, flags: nat) returns (ok: bool)
      requires Valid() && root in roots && vpn < MAXVPN && Kept(vpn) && LeafAt(pages, root, vpn) == 0
      requires flags < 1024 && Present(flags) && IsLeaf(flags) && !IsUser(flags)
      modifies this`pages, this`freelist, this`owner, this`held
      ensures Valid() && held == old(held) && Gains(old(owner), owner, root) && SameBytes(old(pages), pages, roots)
      ensures ok ==> LeafChanged(old(pages), pages, roots, root, vpn, MakePte(ppn, flags))
      ensures !ok ==> SameLeaves(old(pages), pages, roots)
      ensures |old(freelist)| <= |freelist| + (LEVELS - 1) && (!ok ==> |old(freelist)| < LEVELS - 1)
    {
      ghost var pages0, owner0 := pages, owner;
      ok := MapOne(root, vpn, ppn, flags);
      if ok {
        KernelPageBytes(pages0, pages, roots, owner0, held, root, vpn, MakePte(ppn, flags));
      } else {
        SameLeavesBytes(pages0, pages, roots, owner0, held);
      }
    }

    /** proc_pagetable's second mapping; if it fails the tree is given up. */
    method MapTrapframe(root: nat, trapframe: nat, ghost rs: set<nat>) returns (ok: bool)
      requires Valid() && root in roots && rs == roots - {root}
          && (forall v: nat :: v < Width(LEVELS) && v != TRAMPOLINE ==> LeafAt(pages, root, v) == 0)
      modifies this
      ensures Valid() && held == old(held) && SameLeaves(old(pages), pages, rs) && SameBytes(old(pages), pages, rs)
      ensures ok ==> roots == old(roots) && Gains(old(owner), owner, root)
                     && LeafChanged(old(pages), pages, roots, root, TRAPFRAME,
                         MakePte(trapframe, PTE_V + PTE_R + PTE_W))
      ensures !ok ==> GaveUp(old(roots), roots, old(owner), owner, root)
      ensures if ok then |old(freelist)| <= |freelist| + (LEVELS - 1) else |old(freelist)| < LEVELS - 1
    {
      ghost var pages0, owner0 := pages, owner;
      InWidth(TRAPFRAME);
      ok := MapKernelPage(root, TRAPFRAME, trapframe, PTE_V + PTE_R + PTE_W);
      ghost var pages1 := pages;
      ElsewhereSame(pages0, pages0, pages1, rs, roots, root);
      FewerBytes(pages0, pages1, roots, rs);
      if !ok {
        DropTrampoline(root);
        ghost var pages2, owner2 := pages, owner;
        ElsewhereSame(pages0, pages1, pages2, rs, roots, root);
        FewerBytes(pages1, pages2, roots, rs);
        Uvmfree(root, 0);
        SameLeavesTrans(pages0, pages2, pages, rs);
        SameBytesTrans(pages0, pages1, pages2, rs);
        SameBytesTrans(pages0, pages2, pages, rs);
        GainsSame(owner0, owner2, root);
      }
    }

    /** proc_pagetable: a page table with the trampoline and the trapframe, or 0 with
        every page back where it was. */
    method ProcPagetable(trampoline: nat, trapframe: nat) returns (root: nat)
      requires Valid()
      modifies this
      ensures Valid() && held == old(held) && SameLeaves(old(pages), pages, old(roots))
      ensures SameBytes(old(pages), pages, old(roots))
      ensures root == 0 ==> roots == old(roots) && owner == old(owner)
      ensures root != 0 ==> root !in old(roots) && roots == old(roots) + {root} && Gains(old(owner), owner, root)
      ensures root != 0 ==> forall v: nat :: v < Width(LEVELS) ==>
                LeafAt(pages, root, v) == if v == TRAMPOLINE then MakePte(trampoline, PTE_V + PTE_R + PTE_X)
                                          else if v == TRAPFRAME then MakePte(trapframe, PTE_V + PTE_R + PTE_W) else 0
      ensures if root != 0 then |old(freelist)| < |freelist| + 2 * LEVELS else |old(freelist)| < 2 * LEVELS - 1
    {
      ghost var pages0, roots0, owner0 := pages, roots, owner;
      root := Uvmcreate();
      if root == 0 { return; }
      ghost var pages1 := pages;
      NoOwner(pages0, roots0, owner0, root);
      InWidth(TRAMPOLINE);
      var ok := MapKernelPage(root, TRAMPOLINE, trampoline, PTE_V + PTE_R + PTE_X);
      ghost var pages2 := pages;
      ElsewhereSame(pages0, pages1, pages2, roots0, roots, root);
      FewerBytes(pages1, pages2, roots, roots0);
      SameBytesTrans(pages0, pages1, pages2, roots0);
      GainsGone(owner0, owner, root);
      if !ok {
        Uvmfree(root, 0);
        SameLeavesTrans(pages0, pages2, pages, roots0);
        SameBytesTrans(pages0, pages2, pages, roots0);
        return 0;
      }
      ok := MapTrapframe(root, trapframe, roots0);
      SameLeavesTrans(pages0, pages2, pages, roots0);
      SameBytesTrans(pages0, pages2, pages, roots0);
      if !ok { return 0; }
    }

    /** uvmunmap(pagetable, TRAMPOLINE, 1, 0): no page changes hands. */
    method DropTrampoline(root: nat)
      requires Valid() && root in roots
      modifies this`pages, this`freelist, this`owner, this`held
      ensures Valid() && held == old(held) && owner == old(owner) && SameData(old(pages), pages, owner, held)
      ensures Unmapped(old(pages), pages, roots, root, TRAMPOLINE, TRAMPOLINE + 1)
      ensures SameBytes(old(pages), pages, roots)
      ensures forall p :: p in freelist <==> p in old(freelist)
    {
      KeptUnowned(pages, roots, owner, root, TRAMPOLINE);
      ghost var owner0 := owner;
      Uvmunmap(root, TRAMPOLINE, 1, false);
      assert owner == owner0;
    }

    method DropTrapframe(root: nat)
      requires Valid() && root in roots
      modifies this`pages, this`freelist, this`owner, this`held
      ensures Valid() && held == old(held) && owner == old(owner) && SameData(old(pages), pages, owner, held)
      ensures Unmapped(old(pages), pages, roots, root, TRAPFRAME, TRAPFRAME + 1)
      ensures forall p :: p in freelist <==> p in old(freelist)
    {
      KeptUnowned(pages, roots, owner, root, TRAPFRAME);
      ghost var owner0 := owner;
      Uvmunmap(root, TRAPFRAME, 1, false);
      assert owner == owner0;
    }

    /** proc_freepagetable: every page of the tree goes back to the free list once. */
    method ProcFreepagetable(root: nat, sz: nat)
      requires Valid() && root in roots && SpaceOk(pages, root, sz)
      modifies this
      ensures Valid() && held == old(held) && GaveUp(old(roots), roots, old(owner), owner, root)
      ensures SameLeaves(old(pages), pages, roots) && SameData(old(pages), pages, owner, held)
      ensures SameBytes(old(pages), pages, roots)
      ensures forall p :: p in freelist <==> p in old(freelist) || (p in old(owner) && old(owner)[p].root == root)
    {
      ghost var pages0, roots0, owner0 := pages, roots, owner;
      DropTrampoline(root);
      ghost var pages1 := pages;
      DropTrapframe(root);
      ghost var pages2 := pages;
      UnmappedElse(pages0, pages1, roots, roots - {root}, root, TRAMPOLINE, TRAMPOLINE + 1);
      UnmappedElse(pages1, pages2, roots, roots - {root}, root, TRAPFRAME, TRAPFRAME + 1);
      SameLeavesTrans(pages0, pages1, pages2, roots - {root});
      Uvmfree(root, sz);
      SameLeavesTrans(pages0, pages2, pages, roots);
      RemainingBytes(pages0, pages, roots, owner, held);
    }

    // ----- copying to and from user memory -----

    /** walkaddr: the page behind user page vpn, or 0. */
    method Walkaddr(root: nat, vpn: nat) returns (r: nat)
      requires Valid() && root in roots
      modifies this`pages, this`freelist, this`owner, this`held
      ensures pages == old(pages) && freelist == old(freelist) && owner == old(owner) && held == old(held)
      ensures r == if vpn < MAXVPN && IsUser(LeafAt(pages, root, vpn)) then Frame(LeafAt(pages, root, vpn)) else 0
      ensures r != 0 ==> vpn < TRAPFRAME && LeafAt(pages, root, vpn) != 0
      ensures r == 0 && vpn < TRAPFRAME ==> !IsUser(LeafAt(pages, root, vpn))
    {
      if vpn >= MAXVPN { return 0; }
      InWidth(vpn);
      assert SlotOk(pages, owner, Slot(root, LEVELS, vpn));
      var p := Walk(root, vpn, false);
      if p == 0 { return 0; }
      LeafInTable(pages, roots, owner, root, vpn, p);
      var pte := pages[p].ptes[PX(0, vpn)];
      if !Present(pte) || !IsUser(pte) { return 0; }
      return Frame(pte);
    }

    /** vmfault: a zeroed page for an address below sz, the size of the running process, that page
        table root does not map, or 0. The page goes into the table of the process, proc; mapping
        it there twice would be a panic. */
    method Vmfault(root: nat, proc: nat, va: nat, sz: nat) returns (mem: nat)
      requires Valid() && root in roots && proc in roots && PagesFor(sz) <= TRAPFRAME
      requires va < sz && LeafAt(pages, root, va / PGSIZE) == 0 ==> LeafAt(pages, proc, va / PGSIZE) == 0
      modifies this`pages, this`freelist, this`owner, this`held
      ensures Valid() && held == old(held) && SameBytes(old(pages), pages, roots)
      ensures OnlyBelow(old(pages), pages, roots, proc, PagesFor(sz))
      ensures mem != 0 ==> va < sz && LeafAt(old(pages), root, va / PGSIZE) == 0
                           && LeafChanged(old(pages), pages, roots, proc, va / PGSIZE,
                               MakePte(mem, PTE_V + PTE_W + PTE_U + PTE_R))
      ensures mem == 0 ==> SameLeaves(old(pages), pages, roots)
      ensures va >= sz || LeafAt(old(pages), root, va / PGSIZE) != 0 ==> mem == 0
      ensures |old(freelist)| <= |freelist| + LEVELS
      ensures va < sz && LeafAt(old(pages), root, va / PGSIZE) == 0 && |old(freelist)| >= LEVELS ==> mem != 0
    {
      if va >= sz { return 0; }
      var v := va / PGSIZE;
      BelowSize(va, sz);
      InWidth(v);
      var p := Walk(root, v, false);
      assert SlotOk(pages, owner, Slot(root, LEVELS, v));
      if p != 0 {
        LeafInTable(pages, roots, owner, root, v, p);
        if Present(pages[p].ptes[PX(0, v)]) { return 0; }
      }
      ghost var pages0 := pages;
      var flags := PTE_V + PTE_W + PTE_U + PTE_R;
      mem := AddZeroPage(proc, v, flags);
      if mem == 0 {
        SameOnlyBelow(pages0, pages, roots, proc, PagesFor(sz));
      } else {
        ChangedOnlyBelow(pages0, pages, roots, proc, v, MakePte(mem, flags), PagesFor(sz));
      }
    }

    /** The page behind user page v, faulted in if need be: walkaddr, then vmfault. No page
        may be missing from another table than that of the running process. */
    method FindPage(root: nat, proc: nat, v: nat, sz: nat) returns (pa: nat)
      requires Valid() && root in roots && PagesFor(sz) <= TRAPFRAME
      requires proc in roots && (root == proc || NoFault(pages, root, v, sz))
      modifies this`pages, this`freelist, this`owner, this`held
      ensures Valid() && held == old(held) && SameBytes(old(pages), pages, roots)
      ensures LeavesStay(old(pages), pages, roots)
      ensures OnlyBelow(old(pages), pages, roots, root, PagesFor(sz))
      ensures pa != 0 ==> UserPage(pages, root, v) && pa == Frame(LeafAt(pages, root, v))
      ensures UserPage(old(pages), root, v) ==> pa != 0 && pages == old(pages)
      ensures OneLeaf(old(pages), pages, roots, root, v) && |old(freelist)| <= |freelist| + LEVELS
      ensures Missing(old(pages), root, v, sz) && pa != 0 ==> WritablePage(pages, root, v)
      ensures root == proc && Missing(old(pages), root, v, sz) && |old(freelist)| >= LEVELS ==> pa != 0
    {
      ghost var pages0 := pages;
      pa := Walkaddr(root, v);
      if UserPage(pages, root, v) { OwnedFrame(pages, freelist, roots, owner, held, root, v); }
      if pa == 0 {
        pa := Vmfault(root, proc, v * PGSIZE, sz);
        if root != proc { SameOnlyBelow(pages0, pages, roots, root, PagesFor(sz)); }
        if pa != 0 {
          var flags := PTE_V + PTE_W + PTE_U + PTE_R;
          PteFrame(pa, flags);
          PteUser(pa, flags);
          PteWritable(pa, flags);
          BelowSize(v * PGSIZE, sz);
          UserInWidth(v);
        }
      }
    }

    /** The page behind user page v, if the user may write it. */
    method FindWritable(root: nat, proc: nat, v: nat, sz: nat) returns (pa: nat)
      requires Valid() && root in roots && PagesFor(sz) <= TRAPFRAME
      requires proc in roots && (root == proc || NoFault(pages, root, v, sz))
      modifies this`pages, this`freelist, this`owner, this`held
      ensures Valid() && held == old(held) && SameBytes(old(pages), pages, roots)
      ensures LeavesStay(old(pages), pages, roots)
      ensures OnlyBelow(old(pages), pages, roots, root, PagesFor(sz))
      ensures OneLeaf(old(pages), pages, roots, root, v) && |old(freelist)| <= |freelist| + LEVELS
      ensures pa != 0 ==> WritablePage(pages, root, v) && pa == Frame(LeafAt(pages, root, v))
      ensures MustCopyPage(old(pages), |old(freelist)|, root, root == proc, v, sz, true) ==> pa != 0
    {
      if v >= MAXVPN { return 0; }
      pa := FindPage(root, proc, v, sz);
      if pa == 0 { return; }
      UserInWidth(v);
      var p := Walk(root, v, false);
      LeafInTable(pages, roots, owner, root, v, p);
      if !IsWritable(pages[p].ptes[PX(0, v)]) { return 0; }
    }

    /** One round of copyout: src into one user page. */
    method CopyoutPage(root: nat, proc: nat, lo: nat, src: seq<Byte>, sz: nat) returns (ok: bool)
      requires Valid() && root in roots && PagesFor(sz) <= TRAPFRAME && lo % PGSIZE + |src| <= PGSIZE
      requires proc in roots && (root == proc || NoFault(pages, root, lo / PGSIZE, sz))
      modifies this`pages, this`freelist, this`owner, this`held
      ensures Valid() && held == old(held) && LeavesStay(old(pages), pages, roots)
      ensures OnlyBelow(old(pages), pages, roots, root, PagesFor(sz))
      ensures OneLeaf(old(pages), pages, roots, root, lo / PGSIZE) && |old(freelist)| <= |freelist| + LEVELS
      ensures ok ==> WritablePage(pages, root, lo / PGSIZE) && Stored(old(pages), pages, roots, root, lo, src)
      ensures !ok ==> SameBytes(old(pages), pages, roots)
      ensures MustCopyPage(old(pages), |old(freelist)|, root, root == proc, lo / PGSIZE, sz, true) ==> ok
    {
      ghost var pages0 := pages;
      var pa := FindWritable(root, proc, lo / PGSIZE, sz);
      if pa == 0 { return false; }
      ghost var pages1 := pages;
      StoreInPage(pages, roots, owner, root, lo, src);
      pages := pages[pa := Data(Patched(pages[pa].bytes, lo % PGSIZE, src))];
      StoredAfter(pages0, pages1, pages, roots, root, lo, src);
      SameOnlyBelow(pages1, pages, roots, root, PagesFor(sz));
      OnlyBelowTrans(pages0, pages1, pages, roots, root, PagesFor(sz));
      return true;
    }

    /** copyout: src into user memory at dstva; on failure a prefix may have been stored. Pages that
        are missing are added to the running process, so none may be missing from another table. */
    method Copyout(root: nat, proc: nat, dstva: nat, src: seq<Byte>, sz: nat) returns (r: int, ghost k: nat)
      requires Valid() && root in roots && PagesFor(sz) <= TRAPFRAME
      requires proc in roots && (root == proc || NoFaults(pages, root, dstva, |src|, sz))
      modifies this`pages, this`freelist, this`owner, this`held
      ensures Valid() && held == old(held) && k <= |src| && (r == 0 || r == -1) && (r == 0 ==> k == |src|)
      ensures StoredTo(old(pages), pages, roots, root, dstva, src, k, PagesFor(sz))
      ensures root != proc ==> NoFaults(pages, root, dstva, |src|, sz)
      ensures MustCopy(old(pages), |old(freelist)|, root, root == proc, dstva, |src|, sz, true) ==> r == 0
    {
      ghost var pages0, free0 := pages, |freelist|;
      var len := 0;
      while len < |src|
        invariant len <= |src| && Valid() && held == old(held)
        invariant Storing(pages0, pages, free0, |freelist|, roots, root, dstva, src, len, PagesFor(sz))
        invariant root == proc || NoFaults(pages, root, dstva, |src|, sz)
      {
        var n := CopyoutRound(root, proc, dstva, src, len, sz, pages0, free0);
        if n == 0 { return -1, len; }
        len := len + n;
      }
      return 0, len;
    }

    /** One iteration of copyout's loop, at byte len of src: the number of bytes stored, or 0. */
    method CopyoutRound(root: nat, proc: nat, dstva: nat, src: seq<Byte>, len: nat, sz: nat, ghost pages0: Pages,
                        ghost free0: nat)
      returns (n: nat)
      requires Valid() && root in roots && PagesFor(sz) <= TRAPFRAME && len < |src|
      requires proc in roots && (root == proc || NoFaults(pages, root, dstva, |src|, sz))
      requires Storing(pages0, pages, free0, |freelist|, roots, root, dstva, src, len, PagesFor(sz))
      modifies this`pages, this`freelist, this`owner, this`held
      ensures Valid() && held == old(held) && (root == proc || NoFaults(pages, root, dstva, |src|, sz))
      ensures n == 0 ==> StoredTo(pages0, pages, roots, root, dstva, src, len, PagesFor(sz))
      ensures n > 0 ==>
        len + n <= |src| && Storing(pages0, pages, free0, |freelist|, roots, root, dstva, src, len + n, PagesFor(sz))
      ensures MustCopy(pages0, free0, root, root == proc, dstva, |src|, sz, true) ==> n > 0
    {
      var va := dstva + len;
      n := PGSIZE - va % PGSIZE;
      if n > |src| - len { n := |src| - len; }
      ghost var pages1, free1 := pages, |freelist|;
      CopyFinds(pages0, pages, free0, |freelist|, root, root == proc, dstva, |src|, sz, true, va);
      var ok := CopyoutPage(root, proc, va, src[len..len + n], sz);
      if root != proc { NoFaultsStay(pages1, pages, roots, root, dstva, |src|, sz); }
      if !ok {
        StoredSame(pages0, pages1, pages, roots, root, dstva, src, len, PagesFor(sz));
        return 0;
      }
      StoringNext(pages0, pages1, pages, free0, free1, |freelist|, roots, root, dstva, src, len, PagesFor(sz), va, n);
    }

    /** One round of copyin: up to n bytes from the user page that holds address va. */
    method CopyinPage(root: nat, proc: nat, va: nat, n: nat, sz: nat) returns (ok: bool, x: seq<Byte>)
      requires Valid() && root in roots && PagesFor(sz) <= TRAPFRAME && n > 0
      requires proc in roots && (root == proc || NoFault(pages, root, va / PGSIZE, sz))
      modifies this`pages, this`freelist, this`owner, this`held
      ensures Valid() && held == old(held) && SameBytes(old(pages), pages, roots)
      ensures LeavesStay(old(pages), pages, roots)
      ensures OnlyBelow(old(pages), pages, roots, root, PagesFor(sz))
      ensures ok ==>
        UserPage(pages, root, va / PGSIZE) && 0 < |x| <= n && va % PGSIZE + |x| <= PGSIZE && Loaded(pages, root, va, x)
      ensures ok ==> |x| == n || |x| == PGSIZE - va % PGSIZE
      ensures OneLeaf(old(pages), pages, roots, root, va / PGSIZE) && |old(freelist)| <= |freelist| + LEVELS
      ensures MustCopyPage(old(pages), |old(freelist)|, root, root == proc, va / PGSIZE, sz, false) ==> ok
    {
      var pa := FindPage(root, proc, va / PGSIZE, sz);
      if pa == 0 { return false, []; }
      var m := PGSIZE - va % PGSIZE;
      if m > n { m := n; }
      LoadFromPage(pages, roots, owner, root, va, m);
      return true, pages[pa].bytes[va % PGSIZE..va % PGSIZE + m];
    }

    /** copyin: len bytes of user memory at srcva. */
    method Copyin(root: nat, proc: nat, srcva: nat, len: nat, sz: nat) returns (r: int, dst: seq<Byte>)
      requires Valid() && root in roots && PagesFor(sz) <= TRAPFRAME
      requires proc in roots && (root == proc || NoFaults(pages, root, srcva, len, sz))
      modifies this`pages, this`freelist, this`owner, this`held
      ensures Valid() && held == old(held) && SameBytes(old(pages), pages, roots) && (r == 0 || r == -1)
      ensures OnlyBelow(old(pages), pages, roots, root, PagesFor(sz))
      ensures r == 0 ==> |dst| == len && Loaded(pages, root, srcva, dst)
      ensures r == 0 ==> UserRange(pages, root, srcva, len)
      ensures MustCopy(old(pages), |old(freelist)|, root, root == proc, srcva, len, sz, false) ==> r == 0
    {
      ghost var pages0 := pages;
      dst := [];
      var got := 0;
      while got < len
        invariant got == |dst| <= len && Valid() && held == old(held) && SameBytes(pages0, pages, roots)
        invariant LeavesStay(pages0, pages, roots) && OnlyBelow(pages0, pages, roots, root, PagesFor(sz))
        invariant Loaded(pages, root, srcva, dst) && UserRange(pages, root, srcva, got)
        invariant root == proc || NoFaults(pages, root, srcva, len, sz)
        invariant got < len ==> CopyAt(pages0, pages, |old(freelist)|, |freelist|, root, srcva, srcva + got)
      {
        ghost var pages1, free1 := pages, |freelist|;
        var va := srcva + got;
        CopyFinds(pages0, pages, |old(freelist)|, |freelist|, root, root == proc, srcva, len, sz, false, va);
        var ok, x := CopyinPage(root, proc, va, len - got, sz);
        CopyinKeeps(pages0, pages1, pages, roots, root, srcva, dst);
        if root != proc { NoFaultsStay(pages1, pages, roots, root, srcva, len, sz); }
        OnlyBelowTrans(pages0, pages1, pages, roots, root, PagesFor(sz));
        if !ok { return -1, dst; }
        UserRangeStep(pages1, pages, roots, root, srcva, got, va, |x|);
        LoadedStep(pages, root, srcva, dst, va, x);
        CopyAtNext(pages0, pages1, pages, |old(freelist)|, free1, |freelist|, roots, root, srcva, va, |x|);
        dst, got := dst + x, got + |x|;
      }
      return 0, dst;
    }

    /** After a copyout that succeeds, copyin succeeds and reads back what was stored. */
    method StoreAndLoad(root: nat, proc: nat, va: nat, src: seq<Byte>, sz: nat)
      returns (r1: int, r2: int, dst: seq<Byte>)
      requires Valid() && root in roots && PagesFor(sz) <= TRAPFRAME
      requires proc in roots && (root == proc || NoFaults(pages, root, va, |src|, sz))
      modifies this`pages, this`freelist, this`owner, this`held
      ensures Valid() && (r1 == 0 ==> r2 == 0 && dst == src)
    {
      ghost var k;
      r1, k := Copyout(root, proc, va, src, sz);
      ghost var pages0, pages1 := old(pages), pages;
      if r1 == 0 { WritableIsUser(pages, root, va, |src|); }
      r2, dst := Copyin(root, proc, va, |src|, sz);
      if r1 == 0 { ReadBack(pages0, pages1, pages, roots, root, va, src, dst); }
    }
  }

  /** Frames that have not been mapped yet are held, and are as they were. */
  ghost predicate FramesWait(pages0: Pages, pages: Pages, held: set<nat>, lo: nat, hi: nat) {
    forall q: nat :: lo <= q < hi ==>
      q in held && q in pages && pages[q].Data? && q in pages0 && pages[q] == pages0[q]
  }

  lemma CopyinKeeps(pages: Pages, pages1: Pages, pages2: Pages, roots: set<nat>, root: nat, lo: nat, x: seq<Byte>)
    requires SameBytes(pages, pages1, roots) && SameBytes(pages1, pages2, roots) && LeavesStay(pages, pages1, roots)
    requires LeavesStay(pages1, pages2, roots) && root in roots
    requires Loaded(pages1, root, lo, x) && UserRange(pages1, root, lo, |x|)
    ensures SameBytes(pages, pages2, roots) && LeavesStay(pages, pages2, roots) && Loaded(pages2, root, lo, x)
  {
    LeavesStayTrans(pages, pages1, pages2, roots);
    forall r, a: nat | r in roots && IsUserAddr(a) ensures ByteAt(pages2, r, a) == ByteAt(pages, r, a) {
      assert ByteAt(pages1, r, a) == ByteAt(pages, r, a);
    }
    LoadedSame(pages1, pages2, roots, root, lo, x);
  }

  lemma ReadBack(pages: Pages, pages1: Pages, pages2: Pages, roots: set<nat>, root: nat, lo: nat, src: seq<Byte>,
                 x: seq<Byte>)
    requires root in roots && Stored(pages, pages1, roots, root, lo, src[..|src|]) && UserRange(pages1, root, lo, |src|)
    requires SameBytes(pages1, pages2, roots) && |x| == |src| && Loaded(pages2, root, lo, x)
    ensures x == src
  {
    forall i: nat | i < |x| ensures x[i] == src[i] {
      assert UserAddr(pages1, root, lo + i) && IsUserAddr(lo + i);
      assert ByteAt(pages1, root, lo + i) == src[..|src|][lo + i - lo];
    }
  }

  lemma OwnedFrame(pages: Pages, freelist: seq<nat>, roots: set<nat>, owner: map<nat, Slot>, held: set<nat>,
                   root: nat, v: nat)
    requires TreesOk(pages, roots, owner) && PoolOk(pages, freelist, owner, held)
    requires root in roots && UserPage(pages, root, v)
    ensures Frame(LeafAt(pages, root, v)) != 0
  {
    UserInWidth(v);
    assert SlotOk(pages, owner, Slot(root, LEVELS, v));
  }

  lemma BelowSize(va: nat, sz: nat)
    requires va < sz
    ensures va / PGSIZE < PagesFor(sz)
  {}

  lemma UnmappedElse(pages: Pages, pages': Pages, roots: set<nat>, rs: set<nat>, root: nat, lo: nat, hi: nat)
    requires Unmapped(pages, pages', roots, root, lo, hi) && rs <= roots - {root}
    ensures SameLeaves(pages, pages', rs)
  {
    forall r, v: nat | r in rs && v < Width(LEVELS) ensures LeafAt(pages', r, v) == LeafAt(pages, r, v) {
      assert LeafAt(pages', r, v) == if r == root && lo <= v < hi then 0 else LeafAt(pages, r, v);
    }
  }

  /** Changes to one tree's leaf entries leave the trees in rs alone. */
  lemma ElsewhereSame(pages: Pages, pages1: Pages, pages2: Pages, rs: set<nat>, roots: set<nat>, root: nat)
    requires SameLeaves(pages, pages1, rs) && rs <= roots - {root}
    requires forall r, v: nat :: r in roots && r != root && v < Width(LEVELS) ==>
        LeafAt(pages2, r, v) == LeafAt(pages1, r, v)
    ensures SameLeaves(pages, pages2, rs)
  {
    forall r, v: nat | r in rs && v < Width(LEVELS) ensures LeafAt(pages2, r, v) == LeafAt(pages, r, v) {
      assert LeafAt(pages1, r, v) == LeafAt(pages, r, v);
    }
  }

  lemma NoOwner(pages: Pages, roots: set<nat>, owner: map<nat, Slot>, root: nat)
    requires TreesOk(pages, roots, owner) && root !in roots
    ensures forall p :: p in owner ==> owner[p].root != root
  {
    forall p | p in owner ensures owner[p].root != root { assert OwnerOk(pages, roots, owner, p); }
  }

  lemma KeptUnowned(pages: Pages, roots: set<nat>, owner: map<nat, Slot>, root: nat, v: nat)
    requires TreesOk(pages, roots, owner) && Kept(v)
    ensures forall p :: p in owner ==> !InRange(owner[p], root, v, v + 1)
  {
    forall p | p in owner ensures !InRange(owner[p], root, v, v + 1) { assert OwnerOk(pages, roots, owner, p); }
  }

  /** A tree may have gained or lost pages; the others have theirs. */
  ghost predicate Elsewhere(owner: map<nat, Slot>, owner': map<nat, Slot>, root: nat) {
    owner' - OwnedBy(owner', root) == owner - OwnedBy(owner, root)
  }

  lemma ReleasedElsewhere(owner: map<nat, Slot>, owner': map<nat, Slot>, root: nat, lo: nat, hi: nat)
    requires Released(owner, owner', root, lo, hi)
    ensures Elsewhere(owner, owner', root)
  {}

  /** A tree whose user memory is sz bytes: no user page lies at or above sz. */
  ghost predicate SpaceOk(pages: Pages, root: nat, sz: nat) {
    && PagesFor(sz) <= TRAPFRAME
    && forall v: nat :: PagesFor(sz) <= v < Width(LEVELS) && !Kept(v) ==> LeafAt(pages, root, v) == 0
  }

  lemma GainsSame(owner: map<nat, Slot>, owner': map<nat, Slot>, root: nat)
    requires Gains(owner, owner', root)
    ensures owner' - OwnedBy(owner', root) == owner - OwnedBy(owner, root)
  {}

  /** Giving up a new tree undoes what building it did. */
  lemma GainsGone(owner: map<nat, Slot>, owner': map<nat, Slot>, root: nat)
    requires Gains(owner, owner', root) && forall p :: p in owner ==> owner[p].root != root
    ensures owner' - OwnedBy(owner', root) == owner
  {}

  /** A tree is gone: its pages have no owner, and nothing else changed hands. */
  ghost predicate GaveUp(roots: set<nat>, roots': set<nat>, owner: map<nat, Slot>, owner': map<nat, Slot>, root: nat) {
    roots' == roots - {root} && owner' == owner - OwnedBy(owner, root)
  }

  lemma GaveUpAfter(roots: set<nat>, owner: map<nat, Slot>, owner1: map<nat, Slot>, owner2: map<nat, Slot>, root: nat)
    requires owner1 == owner || (exists lo: nat, hi: nat :: Released(owner, owner1, root, lo, hi))
    requires owner2 == owner1 - OwnedBy(owner1, root)
    ensures owner2 == owner - OwnedBy(owner, root)
  {
  }

  lemma OtherTrees(pages: Pages, pages': Pages, roots: set<nat>, owner: map<nat, Slot>)
    requires TreesOk(pages, roots, owner)
    requires forall p :: p in pages && p in owner ==> p in pages' && pages'[p] == pages[p]
    ensures SameLeaves(pages, pages', roots)
  {
    forall r, v: nat | r in roots && v < Width(LEVELS) ensures LeafAt(pages', r, v) == LeafAt(pages, r, v) {
      DataFrame(pages, pages', roots, owner, Slot(r, LEVELS, v));
    }
  }

  /** An entry of a table in a tree without leaves is empty or points to a table. */
  lemma InnerEntry(pages: Pages, roots: set<nat>, owner: map<nat, Slot>, p: nat, i: nat)
    requires TreesOk(pages, roots, owner) && p in owner && owner[p].d < LEVELS && IsTable(pages, owner, p, owner[p].d)
    requires i < FANOUT && NoLeaves(pages, owner[p].root)
    ensures var e, c := pages[p].ptes[i], Child(owner[p], i);
      if Present(e) && !IsLeaf(e) then
        c.d < LEVELS && IsTable(pages, owner, Frame(e), c.d) && owner[Frame(e)] == c
      else e == 0 && SubtreeOf(owner, c) == {}
  {
    var e, c := pages[p].ptes[i], Child(owner[p], i);
    EntryInTable(pages, roots, owner, p, i);
    TableInTree(pages, roots, owner, p, i);
    assert SlotOk(pages, owner, c);
    FlagBits(e);
    assert c.d == LEVELS ==> LeafAt(pages, c.root, c.n) == 0;
    if e == 0 { EmptySubtree(pages, roots, owner, c); }
  }

  ghost predicate NoLeaves(pages: Pages, root: nat) {
    forall v: nat :: v < Width(LEVELS) ==> LeafAt(pages, root, v) == 0
  }

  /** PGROUNDUP(sz) / PGSIZE. */
  function PagesFor(sz: nat): (n: nat) { (sz + PGSIZE - 1) / PGSIZE }

  /** The flags of a PTE carry its bits. */
  lemma FlagBits(pte: nat)
    ensures Flags(pte) < 1024 && Present(Flags(pte)) == Present(pte) && IsLeaf(Flags(pte)) == IsLeaf(pte)
  {
    assert pte == MakePte(Frame(pte), Flags(pte));
    PteFrame(Frame(pte), Flags(pte));
    PteLeaf(Frame(pte), Flags(pte));
  }

  lemma RoundedUp(sz: nat, q: nat)
    ensures PagesFor(sz) <= q <==> sz <= q * PGSIZE
  {}

  lemma FreshPool(pages: Pages, freelist: seq<nat>, lo: nat, hi: nat)
    requires 0 < lo <= hi && |freelist| == hi - lo
    requires forall q: nat :: q in pages <==> lo <= q < hi
    requires forall i: nat :: i < |freelist| ==> freelist[i] == hi - 1 - i
    requires forall q :: q in pages ==> pages[q] == Fill(1)
    ensures TreesOk(pages, {}, map[]) && PoolOk(pages, freelist, map[], {})
    ensures forall q: nat :: q in freelist <==> lo <= q < hi
  {
    forall q: nat | lo <= q < hi
      ensures q in freelist
    {
      assert freelist[hi - 1 - q] == q;
    }
  }

  lemma WholePages(n: nat)
    ensures PagesFor(n * PGSIZE) == n
  {}

  lemma InWidth(vpn: nat)
    requires vpn < MAXVPN
    ensures vpn < Width(LEVELS)
  {
    assert Width(1) == FANOUT && Width(2) == FANOUT * FANOUT;
  }

  /** memset or memmove into a page nobody refers to. */
  lemma WriteHeld(pages: Pages, freelist: seq<nat>, roots: set<nat>, owner: map<nat, Slot>, held: set<nat>, q: nat,
                  x: Page)
    requires TreesOk(pages, roots, owner) && PoolOk(pages, freelist, owner, held) && q in held && PageOk(x)
    ensures q in pages && var pages' := pages[q := x];
      && TreesOk(pages', roots, owner) && PoolOk(pages', freelist, owner, held) && SameLeaves(pages, pages', roots)
  {
    DataWrite(pages, pages[q := x], roots, owner);
    LeavesOf(pages, pages[q := x], roots);
  }

  /** A leaf entry that is not there, or that owns nothing, has nothing to release. */
  lemma Untouched(pages: Pages, roots: set<nat>, owner: map<nat, Slot>, root: nat, v: nat)
    requires TreesOk(pages, roots, owner) && (LeafAt(pages, root, v) == 0 || Kept(v))
    ensures Released(owner, owner, root, v, v + 1)
  {
    forall p | p in owner ensures !InRange(owner[p], root, v, v + 1) { assert OwnerOk(pages, roots, owner, p); }
  }

  lemma ReleasedStep(owner: map<nat, Slot>, owner1: map<nat, Slot>, owner2: map<nat, Slot>, root: nat, lo: nat, v: nat)
    requires Released(owner, owner1, root, lo, v) && Released(owner1, owner2, root, v, v + 1) && lo <= v
    ensures Released(owner, owner2, root, lo, v + 1)
  {}

  lemma MappedGains(owner: map<nat, Slot>, owner1: map<nat, Slot>, owner2: map<nat, Slot>, c: Slot, q: nat)
    requires Gains(owner, owner1, c.root) && owner2 == MapOwner(owner1, c, q) && (owner2 != owner1 ==> q !in owner1)
    ensures Gains(owner, owner2, c.root)
  {}

  lemma SameDataTrans(pages: Pages, pages1: Pages, pages2: Pages, owner: map<nat, Slot>, owner1: map<nat, Slot>,
                      held: set<nat>)
    requires SameData(pages, pages1, owner, held) && SameData(pages1, pages2, owner1, held)
    requires forall p :: p in owner ==> p in owner1 && owner1[p] == owner[p]
    ensures SameData(pages, pages2, owner, held)
  {
    forall p | p in pages && ((p in owner && owner[p].d == LEVELS) || p in held) ensures pages2[p] == pages[p] {
      assert pages1[p] == pages[p];
    }
  }

  lemma LeafChangedAfter(pages: Pages, pages1: Pages, pages2: Pages, roots: set<nat>, root: nat, vpn: nat, pte: nat)
    requires SameLeaves(pages, pages1, roots) && LeafChanged(pages1, pages2, roots, root, vpn, pte)
    ensures LeafChanged(pages, pages2, roots, root, vpn, pte)
  {
    forall r, v: nat | r in roots && v < Width(LEVELS)
      ensures LeafAt(pages2, r, v) == if r == root && v == vpn then pte else LeafAt(pages, r, v)
    {
      assert LeafAt(pages1, r, v) == LeafAt(pages, r, v);
    }
  }
}
