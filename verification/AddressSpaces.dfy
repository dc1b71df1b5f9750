/** The memory of processes (kernel/proc.c): making, growing, shrinking, copying and freeing
    address spaces. Every page of a process comes back when it is freed. */
module AddressSpaces {
  import opened Common
  import opened PageTables
  import opened PagePool
  import opened PageFree
  import opened UserMemory
  import opened VirtualMemory

  const HUGE: nat := 0x1_0000_0000_0000_0000  // uint64 wraps around here

  /** p->sz and p->trapframe of the process with a given page table. */
  datatype Space = Space(sz: nat, trapframe: nat)

  type Spaces = map<nat, Space>

  ghost function Trapframes(procs: Spaces): (ps: set<nat>) { set r | r in procs :: procs[r].trapframe }

  ghost predicate OwnTrapframes(procs: Spaces) {
    forall r, s :: r in procs && s in procs && r != s ==> procs[r].trapframe != procs[s].trapframe
  }

  /** Beside the pages of the rest of the kernel, exactly the trapframes are held. */
  ghost predicate HeldOk(held: set<nat>, other: set<nat>, procs: Spaces) {
    held == other + Trapframes(procs) && other !! Trapframes(procs) && OwnTrapframes(procs)
  }

  lemma HeldMore(held: set<nat>, other: set<nat>, procs: Spaces, root: nat, sp: Space)
    requires HeldOk(held, other, procs) && root !in procs && sp.trapframe !in held
    ensures HeldOk(held + {sp.trapframe}, other, procs[root := sp])
  {
    var more := procs[root := sp];
    assert more[root].trapframe in Trapframes(more);
    forall p | p in Trapframes(procs)
      ensures p in Trapframes(more)
    {
      var r :| r in procs && procs[r].trapframe == p;
      assert more[r].trapframe == p;
    }
    forall r | r in procs
      ensures procs[r].trapframe in held
    {
      assert procs[r].trapframe in Trapframes(procs);
    }
  }

  lemma HeldLess(held: set<nat>, other: set<nat>, procs: Spaces, root: nat)
    requires HeldOk(held, other, procs) && root in procs
    ensures HeldOk(held - {procs[root].trapframe}, other, procs - {root}) && procs[root].trapframe in held
  {
    var less := procs - {root};
    assert procs[root].trapframe in Trapframes(procs);
    forall p | p in Trapframes(procs) && p != procs[root].trapframe
      ensures p in Trapframes(less)
    {
      var r :| r in procs && procs[r].trapframe == p;
      assert r in less && less[r].trapframe == p;
    }
  }

  lemma HeldSame(held: set<nat>, other: set<nat>, procs: Spaces, root: nat, sz: nat)
    requires HeldOk(held, other, procs) && root in procs
    ensures HeldOk(held, other, procs[root := procs[root].(sz := sz)])
  {
    var same := procs[root := procs[root].(sz := sz)];
    forall p | p in Trapframes(procs)
      ensures p in Trapframes(same)
    {
      var r :| r in procs && procs[r].trapframe == p;
      assert same[r].trapframe == p;
    }
    forall p | p in Trapframes(same)
      ensures p in Trapframes(procs)
    {
      var r :| r in same && same[r].trapframe == p;
      assert procs[r].trapframe == p;
    }
  }

  /** No tree maps a user page at or above the size of its process. */
  ghost predicate SizesOk(pages: Pages, procs: Spaces) {
    forall r :: r in procs ==> SpaceOk(pages, r, procs[r].sz)
  }

  lemma SameSizes(pages: Pages, pages': Pages, procs: Spaces, rs: set<nat>)
    requires SizesOk(pages, procs) && procs.Keys <= rs && SameLeaves(pages, pages', rs)
    ensures SizesOk(pages', procs)
  {
    forall r | r in procs
      ensures SpaceOk(pages', r, procs[r].sz)
    {
      assert SpaceOk(pages, r, procs[r].sz);
    }
  }

  /** Changes to one tree's leaf entries below a page leave every other tree's size right. */
  lemma ChangeSizes(pages: Pages, pages': Pages, procs: Spaces, rs: set<nat>, root: nat, hi: nat, sp: Space)
    requires SizesOk(pages, procs) && procs.Keys <= rs && root in procs && OnlyBelow(pages, pages', rs, root, hi)
    requires PagesFor(procs[root].sz) <= hi && SpaceOk(pages', root, sp.sz)
    ensures SizesOk(pages', procs[root := sp])
  {
    forall r | r in procs && r != root
      ensures SpaceOk(pages', r, procs[r].sz)
    {
      assert SpaceOk(pages, r, procs[r].sz);
    }
  }

  lemma BelowSpace(pages: Pages, pages': Pages, rs: set<nat>, root: nat, sz: nat)
    requires SpaceOk(pages, root, sz) && root in rs && OnlyBelow(pages, pages', rs, root, PagesFor(sz))
    ensures SpaceOk(pages', root, sz)
  {}

  lemma GrownSpace(pages: Pages, pages': Pages, rs: set<nat>, root: nat, sz: nat, newsz: nat, flags: nat)
    requires SpaceOk(pages, root, sz) && root in rs && sz <= newsz && PagesFor(newsz) <= TRAPFRAME
    requires Grown(pages, pages', rs, root, PagesFor(sz), PagesFor(newsz), flags)
    ensures SpaceOk(pages', root, newsz) && OnlyBelow(pages, pages', rs, root, PagesFor(newsz))
  {
    forall r, v: nat | r in rs && v < Width(LEVELS) && !(r == root && v < PagesFor(newsz))
      ensures LeafAt(pages', r, v) == LeafAt(pages, r, v)
    {
    }
  }

  lemma ShrunkSpace(pages: Pages, pages': Pages, rs: set<nat>, root: nat, sz: nat, newsz: nat)
    requires SpaceOk(pages, root, sz) && root in rs && newsz <= sz
    requires Unmapped(pages, pages', rs, root, PagesFor(newsz), PagesFor(sz))
    ensures SpaceOk(pages', root, newsz) && OnlyBelow(pages, pages', rs, root, PagesFor(sz))
  {
    forall r, v: nat | r in rs && v < Width(LEVELS)
      ensures LeafAt(pages', r, v) == if r == root && PagesFor(newsz) <= v < PagesFor(sz) then 0
          else LeafAt(pages, r, v)
    {
    }
  }

  lemma CopiedSpace(pages: Pages, pages': Pages, rs: set<nat>, src: nat, dst: nat, sz: nat)
    requires SpaceOk(pages, dst, 0) && src in rs && dst in rs && PagesFor(sz) <= TRAPFRAME
    requires Copied(pages, pages', rs, src, dst, PagesFor(sz))
    ensures SpaceOk(pages', dst, sz) && OnlyBelow(pages, pages', rs, dst, PagesFor(sz))
  {
    forall r, v: nat | r in rs && v < Width(LEVELS) && !(r == dst && v < PagesFor(sz))
      ensures LeafAt(pages', r, v) == LeafAt(pages, r, v)
    {
    }
  }

  class Table {
    const vm: Vm
    var procs: Spaces
    ghost const other: set<nat>  // pages in use by the rest of the kernel

    ghost predicate Valid()
      reads this, vm
    {
      vm.Valid() && procs.Keys == vm.roots && SizesOk(vm.pages, procs) && HeldOk(vm.held, other, procs)
    }

    constructor (vm: Vm)
      requires vm.Valid() && vm.roots == {}
      ensures Valid() && this.vm == vm && procs == map[] && other == vm.held
    {
      this.vm := vm;
      procs := map[];
      other := vm.held;
    }

    /** allocproc, for the memory of the process: a trapframe and an empty address space. */
    method Alloc(trampoline: nat) returns (root: nat)
      requires Valid()
      modifies this, vm
      ensures Valid() && SameLeaves(old(vm.pages), vm.pages, old(vm.roots))
      ensures SameBytes(old(vm.pages), vm.pages, old(vm.roots))
      ensures root == 0 ==> procs == old(procs) && vm.owner == old(vm.owner)
      ensures root != 0 ==>
        && root !in old(procs) && root in procs && procs == old(procs)[root := procs[root]] && procs[root].sz == 0
        && Gains(old(vm.owner), vm.owner, root) && forall a: nat :: IsUserAddr(a) ==> ByteAt(vm.pages, root, a) == 0
      ensures if root == 0 then |old(vm.freelist)| < 2 * LEVELS else |old(vm.freelist)| <= |vm.freelist| + 2 * LEVELS
    {
      ghost var pages0, roots0, held0 := vm.pages, vm.roots, vm.held;
      var tf := vm.Kalloc();
      if tf == 0 { return 0; }
      ghost var pages1 := vm.pages;
      root := vm.ProcPagetable(trampoline, tf);
      SameLeavesTrans(pages0, pages1, vm.pages, roots0);
      SameBytesTrans(pages0, pages1, vm.pages, roots0);
      SameSizes(pages0, vm.pages, procs, roots0);
      if root == 0 {
        ghost var pages2 := vm.pages;
        vm.FreePage(tf);
        SameLeavesTrans(pages0, pages2, vm.pages, roots0);
        SameBytesTrans(pages0, pages2, vm.pages, roots0);
        SameSizes(pages2, vm.pages, procs, roots0);
        return 0;
      }
      assert SpaceOk(vm.pages, root, 0);
      EmptySpace(vm.pages, root, 0);
      HeldMore(held0, other, procs, root, Space(0, tf));
      procs := procs[root := Space(0, tf)];
    }

    /** freeproc, for the memory of the process: each of its pages goes to the free list. */
    method Free(root: nat)
      requires Valid() && root in procs
      modifies this, vm
      ensures Valid() && procs == old(procs) - {root} && SameLeaves(old(vm.pages), vm.pages, vm.roots)
      ensures SameBytes(old(vm.pages), vm.pages, vm.roots)
      ensures vm.owner == old(vm.owner) - OwnedBy(old(vm.owner), root)
      ensures forall p :: p in vm.freelist <==>
        || p in old(vm.freelist) || p == old(procs)[root].trapframe
        || (p in old(vm.owner) && old(vm.owner)[p].root == root)
    {
      var sp := procs[root];
      ghost var pages0, roots0 := vm.pages, vm.roots;
      HeldLess(vm.held, other, procs, root);
      vm.FreePage(sp.trapframe);
      ghost var pages1 := vm.pages;
      SameSizes(pages0, pages1, procs, roots0);
      assert SpaceOk(pages1, root, sp.sz);
      vm.ProcFreepagetable(root, sp.sz);
      procs := procs - {root};
      SameSizes(pages1, vm.pages, procs, vm.roots);
      SameLeavesTrans(pages0, pages1, vm.pages, vm.roots);
      FewerBytes(pages0, pages1, roots0, vm.roots);
      SameBytesTrans(pages0, pages1, vm.pages, vm.roots);
    }

    /** growproc. */
    method Grow(root: nat, n: int) returns (r: int)
      requires Valid() && root in procs && -0x8000_0000 <= n < 0x8000_0000
      modifies this, vm
      ensures Valid() && (r == 0 || r == -1) && vm.roots == old(vm.roots) && Elsewhere(old(vm.owner), vm.owner, root)
      ensures r == 0 ==> procs == old(procs)[root := old(procs)[root].(sz := Resized(old(procs)[root].sz, n))]
      ensures r == 0 && n > 0 ==> Grown(old(vm.pages), vm.pages, vm.roots, root, PagesFor(old(procs)[root].sz),
                                        PagesFor(procs[root].sz), PTE_V + PTE_R + PTE_U + PTE_W)
      ensures r == 0 && n <= 0 ==> Unmapped(old(vm.pages), vm.pages, vm.roots, root, PagesFor(procs[root].sz),
                                            PagesFor(old(procs)[root].sz))
      ensures r == -1 ==> n > 0 && procs == old(procs) && SameLeaves(old(vm.pages), vm.pages, vm.roots)
      ensures n > 0 ==> SameBytes(old(vm.pages), vm.pages, vm.roots)
      ensures n <= 0 ==> Cleared(old(vm.pages), vm.pages, vm.roots, root, PagesFor(procs[root].sz),
                                 PagesFor(old(procs)[root].sz))
      ensures var sz := old(procs)[root].sz;
        && (n > 0 && sz + n > TRAPFRAME * PGSIZE ==> r == -1)
        && (n > 0 && sz + n <= TRAPFRAME * PGSIZE && EnoughFor(|old(vm.freelist)|, sz, sz + n) ==> r == 0)
    {
      var sz := procs[root].sz;
      ghost var pages0, target := vm.pages, Resized(sz, n);
      assert SpaceOk(pages0, root, sz);
      if n > 0 {
        if sz + n > TRAPFRAME * PGSIZE { return -1; }
        RoundedUp(sz + n, TRAPFRAME);
        FitsUnder(pages0, root, sz, sz + n);
        var newsz := vm.Uvmalloc(root, sz, sz + n, PTE_W);
        if newsz == 0 {
          SameSizes(pages0, vm.pages, procs, vm.roots);
          return -1;
        }
        assert newsz == target;
        GrownSpace(pages0, vm.pages, vm.roots, root, sz, newsz, PTE_V + PTE_R + PTE_U + PTE_W);
        MonoPages(sz, newsz);
        Resize(root, newsz, pages0, PagesFor(newsz));
      } else if n < 0 {
        var newsz := vm.Uvmdealloc(root, sz, if sz + n >= 0 then sz + n else sz + n + HUGE);
        assert newsz == target;
        ShrunkSpace(pages0, vm.pages, vm.roots, root, sz, newsz);
        Resize(root, newsz, pages0, PagesFor(sz));
      } else {
        assert procs[root := procs[root].(sz := target)] == procs;
      }
      return 0;
    }

    /** p->sz = sz, once the page table is right for it. */
    method Resize(root: nat, sz: nat, ghost pages0: Pages, ghost hi: nat)
      requires vm.Valid() && procs.Keys == vm.roots && SizesOk(pages0, procs) && HeldOk(vm.held, other, procs)
      requires root in procs && OnlyBelow(pages0, vm.pages, vm.roots, root, hi)
      requires PagesFor(procs[root].sz) <= hi && SpaceOk(vm.pages, root, sz)
      modifies this`procs
      ensures Valid() && procs == old(procs)[root := old(procs)[root].(sz := sz)]
    {
      ChangeSizes(pages0, vm.pages, procs, vm.roots, root, hi, procs[root].(sz := sz));
      HeldSame(vm.held, other, procs, root, sz);
      procs := procs[root := procs[root].(sz := sz)];
    }

    /** kfork copies the parent's memory into the empty space of the child. */
    method CopyChild(parent: nat, child: nat) returns (ok: bool)
      requires Valid() && parent in procs && child in procs && parent != child && procs[child].sz == 0
      modifies this, vm
      ensures Valid() && vm.roots == old(vm.roots) && Elsewhere(old(vm.owner), vm.owner, child)
      ensures SameLeaves(old(vm.pages), vm.pages, vm.roots - {child})
      ensures SameBytes(old(vm.pages), vm.pages, vm.roots - {child})
      ensures ok ==> procs == old(procs)[child := old(procs)[child].(sz := old(procs)[parent].sz)]
                     && ChildOf(vm.pages, parent, child, old(procs)[parent].sz)
                     && ReadsAs(old(vm.pages), parent, vm.pages, child)
      ensures !ok ==> procs == old(procs)
      ensures |old(vm.freelist)| >= LEVELS * PagesFor(old(procs)[parent].sz) ==> ok
    {
      ghost var pages0 := vm.pages;
      var sz := procs[parent].sz;
      assert SpaceOk(pages0, parent, sz) && SpaceOk(pages0, child, 0);
      FitsUnder(pages0, child, 0, sz);
      var r := vm.Uvmcopy(parent, child, sz);
      if r < 0 {
        SameSizes(pages0, vm.pages, procs, vm.roots);
        return false;
      }
      CopiedReads(pages0, vm.pages, vm.roots, parent, child, sz);
      CopiedSpace(pages0, vm.pages, vm.roots, parent, child, sz);
      CopiedChild(pages0, vm.pages, vm.roots, parent, child, sz);
      CopiedElse(pages0, vm.pages, vm.roots, parent, child, sz);
      Resize(child, sz, pages0, PagesFor(sz));
      return true;
    }

    /** kfork, for the memory of the child: copies of the parent's pages, or nothing at all. */
    method Fork(parent: nat, trampoline: nat) returns (child: nat)
      requires Valid() && parent in procs
      modifies this, vm
      ensures Valid() && SameLeaves(old(vm.pages), vm.pages, old(vm.roots))
      ensures SameBytes(old(vm.pages), vm.pages, old(vm.roots))
      ensures child == 0 ==> procs == old(procs) && vm.owner == old(vm.owner)
      ensures child != 0 ==>
        && child !in old(procs) && child in procs && procs == old(procs)[child := procs[child]]
        && procs[child].sz == old(procs)[parent].sz && ChildOf(vm.pages, parent, child, procs[child].sz)
        && ReadsAs(old(vm.pages), parent, vm.pages, child)
      ensures |old(vm.freelist)| >= LEVELS * (PagesFor(old(procs)[parent].sz) + 2) ==> child != 0
    {
      ghost var pages0, roots0, owner0, procs0 := vm.pages, vm.roots, vm.owner, procs;
      child := Alloc(trampoline);
      if child == 0 { return; }
      ghost var pages1, owner1, procs1 := vm.pages, vm.owner, procs;
      NoOwner(pages0, roots0, owner0, child);
      GainsGone(owner0, owner1, child);
      var ok := CopyChild(parent, child);
      ghost var pages2 := vm.pages;
      KeysMore(procs0, child, procs1[child]);
      SameLeavesTrans(pages0, pages1, pages2, roots0);
      SameBytesTrans(pages0, pages1, pages2, roots0);
      if !ok {
        Free(child);
        SameLeavesTrans(pages0, pages2, vm.pages, roots0);
        SameBytesTrans(pages0, pages2, vm.pages, roots0);
        AddDrop(procs0, child, procs1[child]);
        return 0;
      }
      AddChange(procs0, child, procs1[child], procs[child]);
    }

    /** vmfault for a process that touches va. */
    method Fault(root: nat, va: nat) returns (mem: nat)
      requires Valid() && root in procs
      modifies vm
      ensures Valid() && SameBytes(old(vm.pages), vm.pages, vm.roots)
      ensures mem != 0 ==> LeafChanged(old(vm.pages), vm.pages, vm.roots, root, va / PGSIZE,
                                       MakePte(mem, PTE_V + PTE_W + PTE_U + PTE_R))
      ensures mem == 0 ==> SameLeaves(old(vm.pages), vm.pages, vm.roots)
      ensures var missing := va < procs[root].sz && LeafAt(old(vm.pages), root, va / PGSIZE) == 0;
        (mem != 0 ==> missing) && (missing && |old(vm.freelist)| >= LEVELS ==> mem != 0)
    {
      ghost var pages0 := vm.pages;
      var sz := procs[root].sz;
      assert SpaceOk(pages0, root, sz);
      mem := vm.Vmfault(root, root, va, sz);
      StaySized(root, pages0, sz);
    }

    /** copyout to a process. */
    method CopyTo(root: nat, va: nat, src: seq<Byte>) returns (r: int, ghost k: nat)
      requires Valid() && root in procs
      modifies vm
      ensures Valid() && k <= |src| && (r == 0 || r == -1) && (r == 0 ==> k == |src|)
      ensures Stored(old(vm.pages), vm.pages, vm.roots, root, va, src[..k])
      ensures r == 0 ==> WritableRange(vm.pages, root, va, |src|)
      ensures MustCopy(old(vm.pages), |old(vm.freelist)|, root, true, va, |src|, procs[root].sz, true) ==> r == 0
    {
      ghost var pages0 := vm.pages;
      var sz := procs[root].sz;
      assert SpaceOk(pages0, root, sz);
      r, k := vm.Copyout(root, root, va, src, sz);
      StaySized(root, pages0, sz);
    }

    /** copyin from a process. */
    method CopyFrom(root: nat, va: nat, len: nat) returns (r: int, dst: seq<Byte>)
      requires Valid() && root in procs
      modifies vm
      ensures Valid() && SameBytes(old(vm.pages), vm.pages, vm.roots) && (r == 0 || r == -1)
      ensures r == 0 ==> |dst| == len && Loaded(vm.pages, root, va, dst)
      ensures r == 0 ==> UserRange(vm.pages, root, va, len)
      ensures MustCopy(old(vm.pages), |old(vm.freelist)|, root, true, va, len, procs[root].sz, false) ==> r == 0
    {
      ghost var pages0 := vm.pages;
      var sz := procs[root].sz;
      assert SpaceOk(pages0, root, sz);
      r, dst := vm.Copyin(root, root, va, len, sz);
      StaySized(root, pages0, sz);
    }

    lemma StaySized(root: nat, pages0: Pages, sz: nat)
      requires root in procs && procs.Keys <= vm.roots && sz == procs[root].sz && SizesOk(pages0, procs)
      requires OnlyBelow(pages0, vm.pages, vm.roots, root, PagesFor(sz))
      ensures SizesOk(vm.pages, procs)
    {
      assert SpaceOk(pages0, root, sz);
      BelowSpace(pages0, vm.pages, vm.roots, root, sz);
      ChangeSizes(pages0, vm.pages, procs, vm.roots, root, PagesFor(sz), procs[root]);
      assert procs[root := procs[root]] == procs;
    }

    /** With no process left, every page is back on the free list except those the rest of
        the kernel holds: no page is lost, whatever was done before. */
    lemma NoPageLost()
      requires Valid() && procs == map[]
      ensures forall p :: p in vm.pages <==> p in vm.freelist || p in other
      ensures forall p :: p in other ==> p !in vm.freelist
    {
      assert Trapframes(procs) == {};
      forall p
        ensures p !in vm.owner
      {
        assert OwnerOk(vm.pages, vm.roots, vm.owner, p);
      }
    }
  }

  /** There are LEVELS free pages for each page between the two sizes. */
  predicate EnoughFor(free: nat, sz: nat, newsz: nat) { free >= LEVELS * (PagesFor(newsz) - PagesFor(sz)) }

  /** The size a process has after growproc(n): it does not change when n asks for less
      than nothing. */
  function Resized(sz: nat, n: int): (r: nat) { if sz + n >= 0 then sz + n else sz }

  lemma AddDrop(procs: Spaces, root: nat, sp: Space)
    requires root !in procs
    ensures procs[root := sp] - {root} == procs
  {}

  lemma AddChange(procs: Spaces, root: nat, sp: Space, sp': Space)
    ensures procs[root := sp][root := sp'] == procs[root := sp']
  {}

  lemma KeysMore(procs: Spaces, root: nat, sp: Space)
    requires root !in procs
    ensures procs[root := sp].Keys - {root} == procs.Keys
  {}

  lemma MonoPages(a: nat, b: nat)
    requires a <= b
    ensures PagesFor(a) <= PagesFor(b)
  {}

  lemma FitsUnder(pages: Pages, root: nat, sz: nat, newsz: nat)
    requires SpaceOk(pages, root, sz) && PagesFor(newsz) <= TRAPFRAME
    ensures forall v: nat :: PagesFor(sz) <= v < PagesFor(newsz) ==> LeafAt(pages, root, v) == 0
  {
    forall v: nat | PagesFor(sz) <= v < PagesFor(newsz)
      ensures LeafAt(pages, root, v) == 0
    {
      InWidth(v);
    }
  }

  /** The child maps a page below sz exactly where the parent does, with the same flags and
      contents, and it is a page of its own. */
  ghost predicate ChildOf(pages: Pages, parent: nat, child: nat, sz: nat) {
    forall v: nat :: v < PagesFor(sz) ==> ChildPage(pages, LeafAt(pages, parent, v), LeafAt(pages, child, v))
  }

  ghost predicate ChildPage(pages: Pages, e: nat, f: nat) { if e == 0 then f == 0 else CopyOf(pages, e, f) }

  lemma CopiedChild(pages: Pages, pages': Pages, rs: set<nat>, src: nat, dst: nat, sz: nat)
    requires Copied(pages, pages', rs, src, dst, PagesFor(sz)) && src in rs && dst in rs && src != dst
    requires PagesFor(sz) <= TRAPFRAME && SpaceOk(pages, dst, 0)
    ensures ChildOf(pages', src, dst, sz)
  {
    forall v: nat | v < PagesFor(sz)
      ensures ChildPage(pages', LeafAt(pages', src, v), LeafAt(pages', dst, v))
    {
      InWidth(v);
      assert LeafAt(pages', src, v) == LeafAt(pages, src, v);
      assert LeafAt(pages, dst, v) == 0;
    }
  }

  /** One address space reads byte for byte as another did. */
  ghost predicate ReadsAs(pages: Pages, root: nat, pages': Pages, root': nat) {
    forall a: nat :: IsUserAddr(a) ==> ByteAt(pages', root', a) == ByteAt(pages, root, a)
  }

  /** Above its size an address space reads as zero. */
  lemma EmptySpace(pages: Pages, root: nat, sz: nat)
    requires SpaceOk(pages, root, sz)
    ensures forall a: nat :: IsUserAddr(a) && a / PGSIZE >= PagesFor(sz) ==> ByteAt(pages, root, a) == 0
  {
    forall a: nat | IsUserAddr(a) && a / PGSIZE >= PagesFor(sz) ensures ByteAt(pages, root, a) == 0 { AddrInWidth(a); }
  }

  lemma CopiedReads(pages: Pages, pages': Pages, rs: set<nat>, src: nat, dst: nat, sz: nat)
    requires CopiedBytes(pages, pages', rs, src, dst, PagesFor(sz)) && src in rs && dst in rs && src != dst
    requires SpaceOk(pages, src, sz) && SpaceOk(pages, dst, 0)
    ensures ReadsAs(pages, src, pages', dst) && SameBytes(pages, pages', rs - {dst})
  {
    EmptySpace(pages, src, sz);
    EmptySpace(pages, dst, 0);
    forall a: nat | IsUserAddr(a) ensures ByteAt(pages', dst, a) == ByteAt(pages, src, a) {
      assert ByteAt(pages', dst, a) == ByteAt(pages, if a / PGSIZE < PagesFor(sz) then src else dst, a);
    }
  }

  lemma CopiedElse(pages: Pages, pages': Pages, rs: set<nat>, src: nat, dst: nat, sz: nat)
    requires Copied(pages, pages', rs, src, dst, PagesFor(sz))
    ensures SameLeaves(pages, pages', rs - {dst})
  {
    forall r, v: nat | r in rs - {dst} && v < Width(LEVELS)
      ensures LeafAt(pages', r, v) == LeafAt(pages, r, v)
    {
    }
  }
}
