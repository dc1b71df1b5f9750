/** The bytes a process sees through its page table. */
module UserMemory {
  import opened Common
  import opened PageTables
  import opened PageTrees
  import opened PagePool

  /** Byte a of the address space; pages not yet there read as zero. */
  function ByteAt(pages: Pages, root: nat, a: nat): (x: Byte) {
    var e := LeafAt(pages, root, a / PGSIZE);
    if e != 0 && Frame(e) in pages && pages[Frame(e)].Data? && |pages[Frame(e)].bytes| == PGSIZE
    then pages[Frame(e)].bytes[a % PGSIZE] else 0
  }

  predicate IsUserAddr(a: nat) { a / PGSIZE < TRAPFRAME }

  ghost predicate SameBytes(pages: Pages, pages': Pages, roots: set<nat>) {
    forall r, a: nat :: r in roots && IsUserAddr(a) ==> ByteAt(pages', r, a) == ByteAt(pages, r, a)
  }

  lemma AddrInWidth(a: nat)
    requires IsUserAddr(a)
    ensures a / PGSIZE < Width(LEVELS) && !Kept(a / PGSIZE)
  {
    assert Width(1) == FANOUT && Width(2) == FANOUT * FANOUT;
  }

  /** A byte whose page is mapped as before, to a page that keeps its contents. */
  lemma KeptByte(pages: Pages, pages': Pages, roots: set<nat>, owner: map<nat, Slot>, held: set<nat>, r: nat, a: nat)
    requires TreesOk(pages, roots, owner) && SameData(pages, pages', owner, held) && r in roots && IsUserAddr(a)
    requires LeafAt(pages', r, a / PGSIZE) == LeafAt(pages, r, a / PGSIZE)
    ensures ByteAt(pages', r, a) == ByteAt(pages, r, a)
  {
    AddrInWidth(a);
    if LeafAt(pages, r, a / PGSIZE) != 0 { FrameKept(pages, pages', roots, owner, held, r, a / PGSIZE); }
  }

  lemma SameBytesTrans(pages: Pages, pages1: Pages, pages2: Pages, roots: set<nat>)
    requires SameBytes(pages, pages1, roots) && SameBytes(pages1, pages2, roots)
    ensures SameBytes(pages, pages2, roots)
  {
    forall r, a: nat | r in roots && IsUserAddr(a) ensures ByteAt(pages2, r, a) == ByteAt(pages, r, a) {
      assert ByteAt(pages1, r, a) == ByteAt(pages, r, a);
    }
  }

  lemma FewerBytes(pages: Pages, pages': Pages, roots: set<nat>, rs: set<nat>)
    requires SameBytes(pages, pages', roots) && rs <= roots
    ensures SameBytes(pages, pages', rs)
  {}

  /** The trees that are left keep their bytes, if those pages do that are owned afterwards. */
  lemma RemainingBytes(pages: Pages, pages': Pages, roots: set<nat>, owner: map<nat, Slot>, held: set<nat>)
    requires TreesOk(pages', roots, owner) && SameLeaves(pages, pages', roots) && SameData(pages, pages', owner, held)
    ensures SameBytes(pages, pages', roots)
  {
    forall r, a: nat | r in roots && IsUserAddr(a) ensures ByteAt(pages', r, a) == ByteAt(pages, r, a) {
      AddrInWidth(a);
      KeptByte(pages', pages, roots, owner, held, r, a);
    }
  }

  /** Pages lo .. hi of one address space read as zero; every other byte is as before. */
  ghost predicate Cleared(pages: Pages, pages': Pages, roots: set<nat>, root: nat, lo: nat, hi: nat) {
    forall r, a: nat :: r in roots && IsUserAddr(a) ==>
      ByteAt(pages', r, a) == if r == root && lo <= a / PGSIZE < hi then 0 else ByteAt(pages, r, a)
  }

  lemma UnmappedBytes(pages: Pages, pages': Pages, roots: set<nat>, owner: map<nat, Slot>, held: set<nat>, root: nat,
                      lo: nat, hi: nat)
    requires TreesOk(pages', roots, owner) && SameData(pages, pages', owner, held)
    requires Unmapped(pages, pages', roots, root, lo, hi)
    ensures Cleared(pages, pages', roots, root, lo, hi)
  {
    forall r, a: nat | r in roots && IsUserAddr(a)
      ensures ByteAt(pages', r, a) == if r == root && lo <= a / PGSIZE < hi then 0 else ByteAt(pages, r, a)
    {
      AddrInWidth(a);
      var v := a / PGSIZE;
      assert LeafAt(pages', r, v) == if r == root && lo <= v < hi then 0 else LeafAt(pages, r, v);
      if !(r == root && lo <= v < hi) { KeptByte(pages', pages, roots, owner, held, r, a); }
    }
  }

  /** Clearing what reads as zero already changes nothing. */
  lemma ClearedBack(pages: Pages, pages1: Pages, pages2: Pages, roots: set<nat>, root: nat, lo: nat, hi: nat)
    requires SameBytes(pages, pages1, roots) && Cleared(pages1, pages2, roots, root, lo, hi)
    requires forall v: nat :: lo <= v < hi ==> LeafAt(pages, root, v) == 0
    ensures SameBytes(pages, pages2, roots)
  {
    forall r, a: nat | r in roots && IsUserAddr(a) ensures ByteAt(pages2, r, a) == ByteAt(pages, r, a) {
      assert ByteAt(pages1, r, a) == ByteAt(pages, r, a);
    }
  }

  /** Mapping or unmapping a page above user memory changes no byte. */
  lemma KernelPageBytes(pages: Pages, pages': Pages, roots: set<nat>, owner: map<nat, Slot>, held: set<nat>, root: nat,
                        v: nat, pte: nat)
    requires TreesOk(pages, roots, owner) && SameData(pages, pages', owner, held) && Kept(v)
    requires LeafChanged(pages, pages', roots, root, v, pte)
    ensures SameBytes(pages, pages', roots)
  {
    forall r, a: nat | r in roots && IsUserAddr(a) ensures ByteAt(pages', r, a) == ByteAt(pages, r, a) {
      AddrInWidth(a);
      KeptByte(pages, pages', roots, owner, held, r, a);
    }
  }

  // ----- copies -----

  /** Below page hi one address space reads as another did; every other byte is as before. */
  ghost predicate CopiedBytes(pages: Pages, pages': Pages, roots: set<nat>, src: nat, dst: nat, hi: nat) {
    forall r, a: nat :: r in roots && IsUserAddr(a) ==>
      ByteAt(pages', r, a) == ByteAt(pages, if r == dst && a / PGSIZE < hi then src else r, a)
  }

  /** One page of a copy. */
  ghost predicate PageCopied(pages: Pages, pages': Pages, roots: set<nat>, src: nat, dst: nat, v: nat) {
    forall r, a: nat :: r in roots && IsUserAddr(a) ==>
      ByteAt(pages', r, a) == ByteAt(pages, if r == dst && a / PGSIZE == v then src else r, a)
  }

  lemma PageCopy(pages: Pages, pages': Pages, roots: set<nat>, owner: map<nat, Slot>, held: set<nat>, src: nat,
                 dst: nat, v: nat)
    requires TreesOk(pages, roots, owner) && SameData(pages, pages', owner, held) && src in roots && src != dst
    requires forall r, w: nat :: r in roots && w < Width(LEVELS) && !(r == dst && w == v) ==>
               LeafAt(pages', r, w) == LeafAt(pages, r, w)
    requires if LeafAt(pages, src, v) == 0 then LeafAt(pages', dst, v) == 0
             else CopyOf(pages', LeafAt(pages, src, v), LeafAt(pages', dst, v))
    ensures PageCopied(pages, pages', roots, src, dst, v)
  {
    forall r, a: nat | r in roots && IsUserAddr(a)
      ensures ByteAt(pages', r, a) == ByteAt(pages, if r == dst && a / PGSIZE == v then src else r, a)
    {
      AddrInWidth(a);
      var s := if r == dst && a / PGSIZE == v then src else r;
      assert LeafAt(pages', s, a / PGSIZE) == LeafAt(pages, s, a / PGSIZE);
      KeptByte(pages, pages', roots, owner, held, s, a);
    }
  }

  lemma CopiedBytesStep(pages: Pages, pages1: Pages, pages2: Pages, roots: set<nat>, src: nat, dst: nat, v: nat)
    requires CopiedBytes(pages, pages1, roots, src, dst, v) && PageCopied(pages1, pages2, roots, src, dst, v)
    requires src in roots && src != dst
    ensures CopiedBytes(pages, pages2, roots, src, dst, v + 1)
  {
    forall r, a: nat | r in roots && IsUserAddr(a)
      ensures ByteAt(pages2, r, a) == ByteAt(pages, if r == dst && a / PGSIZE < v + 1 then src else r, a)
    {
      assert ByteAt(pages1, src, a) == ByteAt(pages, src, a);
      assert ByteAt(pages1, r, a) == ByteAt(pages, if r == dst && a / PGSIZE < v then src else r, a);
    }
  }

  // ----- frames mapped in order -----

  function FrameByte(pages: Pages, q: nat, o: nat): (x: Byte) {
    if q in pages && pages[q].Data? && o < |pages[q].bytes| then pages[q].bytes[o] else 0
  }

  /** Pages lo .. hi of one address space read as the frames from ppn; every other byte is as before. */
  ghost predicate MappedBytes(pages: Pages, pages': Pages, roots: set<nat>, root: nat, lo: nat, hi: nat, ppn: nat) {
    forall r, a: nat :: r in roots && IsUserAddr(a) ==>
      ByteAt(pages', r, a) ==
        if r == root && lo <= a / PGSIZE < hi then FrameByte(pages, ppn + (a / PGSIZE - lo), a % PGSIZE)
        else ByteAt(pages, r, a)
  }

  /** One page of one address space reads as frame q; every other byte is as before. */
  ghost predicate FrameMapped(pages: Pages, pages': Pages, roots: set<nat>, root: nat, v: nat, q: nat) {
    forall r, a: nat :: r in roots && IsUserAddr(a) ==>
      ByteAt(pages', r, a) ==
        if r == root && a / PGSIZE == v then FrameByte(pages, q, a % PGSIZE) else ByteAt(pages, r, a)
  }

  lemma FrameBytes(pages: Pages, pages': Pages, roots: set<nat>, owner: map<nat, Slot>, held: set<nat>, root: nat,
                   v: nat, e: nat, q: nat)
    requires TreesOk(pages, roots, owner) && SameData(pages, pages', owner, held) && e != 0 && Frame(e) == q
    requires LeafChanged(pages, pages', roots, root, v, e) && q in held && q in pages && pages[q].Data?
    ensures FrameMapped(pages, pages', roots, root, v, q)
  {
    assert PageOk(pages[q]);
    forall r, a: nat | r in roots && IsUserAddr(a)
      ensures ByteAt(pages', r, a) == if r == root && a / PGSIZE == v then FrameByte(pages, q, a % PGSIZE)
          else ByteAt(pages, r, a)
    {
      AddrInWidth(a);
      if !(r == root && a / PGSIZE == v) { KeptByte(pages, pages', roots, owner, held, r, a); }
    }
  }

  lemma MappedBytesStep(pages: Pages, pages1: Pages, pages2: Pages, roots: set<nat>, root: nat, lo: nat, v: nat,
                        ppn: nat, q: nat)
    requires MappedBytes(pages, pages1, roots, root, lo, v, ppn) && lo <= v && q == ppn + (v - lo)
    requires FrameMapped(pages1, pages2, roots, root, v, q) && q in pages1 && q in pages && pages1[q] == pages[q]
    ensures MappedBytes(pages, pages2, roots, root, lo, v + 1, ppn)
  {
    forall r, a: nat | r in roots && IsUserAddr(a)
      ensures ByteAt(pages2, r, a) == if r == root && lo <= a / PGSIZE < v + 1
          then FrameByte(pages, ppn + (a / PGSIZE - lo), a % PGSIZE) else ByteAt(pages, r, a)
    {
      assert FrameByte(pages1, q, a % PGSIZE) == FrameByte(pages, q, a % PGSIZE);
      assert ByteAt(pages2, r, a) == if r == root && a / PGSIZE == v then FrameByte(pages1, q, a % PGSIZE)
          else ByteAt(pages1, r, a);
    }
  }

  lemma MappedBytesSame(pages: Pages, pages1: Pages, pages2: Pages, roots: set<nat>, root: nat, lo: nat, v: nat,
                        ppn: nat)
    requires MappedBytes(pages, pages1, roots, root, lo, v, ppn) && SameBytes(pages1, pages2, roots)
    ensures MappedBytes(pages, pages2, roots, root, lo, v, ppn)
  {
    forall r, a: nat | r in roots && IsUserAddr(a) ensures ByteAt(pages2, r, a) == ByteAt(pages1, r, a) {}
  }

  lemma SameLeavesBytes(pages: Pages, pages': Pages, roots: set<nat>, owner: map<nat, Slot>, held: set<nat>)
    requires TreesOk(pages, roots, owner) && SameLeaves(pages, pages', roots) && SameData(pages, pages', owner, held)
    ensures SameBytes(pages, pages', roots)
  {
    forall r, a: nat | r in roots && IsUserAddr(a) ensures ByteAt(pages', r, a) == ByteAt(pages, r, a) {
      AddrInWidth(a);
      assert LeafAt(pages', r, a / PGSIZE) == LeafAt(pages, r, a / PGSIZE);
      if LeafAt(pages, r, a / PGSIZE) != 0 { FrameKept(pages, pages', roots, owner, held, r, a / PGSIZE); }
    }
  }

  /** A new page of zeroes changes no byte. */
  lemma FaultBytes(pages: Pages, pages': Pages, roots: set<nat>, owner: map<nat, Slot>, held: set<nat>,
                   root: nat, v: nat, q: nat, flags: nat)
    requires TreesOk(pages, roots, owner) && SameData(pages, pages', owner, held) && flags < 1024
    requires LeafChanged(pages, pages', roots, root, v, MakePte(q, flags)) && LeafAt(pages, root, v) == 0
    requires q in pages' && pages'[q] == Fill(0)
    ensures SameBytes(pages, pages', roots)
  {
    PteFrame(q, flags);
    forall r, a: nat | r in roots && IsUserAddr(a) ensures ByteAt(pages', r, a) == ByteAt(pages, r, a) {
      AddrInWidth(a);
      var w := a / PGSIZE;
      assert LeafAt(pages', r, w) == if r == root && w == v then MakePte(q, flags) else LeafAt(pages, r, w);
      if !(r == root && w == v) && LeafAt(pages, r, w) != 0 { FrameKept(pages, pages', roots, owner, held, r, w); }
    }
  }

  /** Bytes lo .. lo + |src| of one address space hold src; every other byte of every
      address space is as before. */
  ghost predicate Stored(pages: Pages, pages': Pages, roots: set<nat>, root: nat, lo: nat, src: seq<Byte>) {
    forall r, a: nat :: r in roots && IsUserAddr(a) ==>
      ByteAt(pages', r, a) == if r == root && lo <= a < lo + |src| then src[a - lo] else ByteAt(pages, r, a)
  }

  function Patched(bytes: seq<Byte>, at: nat, src: seq<Byte>): (r: seq<Byte>)
    requires at + |src| <= |bytes|
  {
    bytes[..at] + src + bytes[at + |src|..]
  }

  /** memmove into the page that holds addresses lo .. lo + |src|. */
  lemma StoreInPage(pages: Pages, roots: set<nat>, owner: map<nat, Slot>, root: nat, lo: nat, src: seq<Byte>)
    requires TreesOk(pages, roots, owner) && root in roots && IsUserAddr(lo) && lo % PGSIZE + |src| <= PGSIZE
    requires LeafAt(pages, root, lo / PGSIZE) != 0
    ensures var q := Frame(LeafAt(pages, root, lo / PGSIZE));
      && q in pages && pages[q].Data? && |pages[q].bytes| == PGSIZE
      && var pages' := pages[q := Data(Patched(pages[q].bytes, lo % PGSIZE, src))];
         TreesOk(pages', roots, owner) && SameLeaves(pages, pages', roots)
             && Stored(pages, pages', roots, root, lo, src)
  {
    AddrInWidth(lo);
    var v := lo / PGSIZE;
    var q := Frame(LeafAt(pages, root, v));
    assert SlotOk(pages, owner, Slot(root, LEVELS, v)) && PageOk(pages[q]);
    var pages' := pages[q := Data(Patched(pages[q].bytes, lo % PGSIZE, src))];
    DataWrite(pages, pages', roots, owner);
    LeavesOf(pages, pages', roots);
    forall r, a: nat | r in roots && IsUserAddr(a)
      ensures ByteAt(pages', r, a) == if r == root && lo <= a < lo + |src| then src[a - lo] else ByteAt(pages, r, a)
    {
      AddrInWidth(a);
      assert LeafAt(pages', r, a / PGSIZE) == LeafAt(pages, r, a / PGSIZE);
      assert SlotOk(pages, owner, Slot(r, LEVELS, a / PGSIZE));
      SamePage(lo, |src|, a);
    }
  }

  lemma SamePage(lo: nat, n: nat, a: nat)
    requires lo % PGSIZE + n <= PGSIZE
    ensures lo <= a < lo + n ==> a / PGSIZE == lo / PGSIZE
    ensures a / PGSIZE == lo / PGSIZE ==> a - lo == a % PGSIZE - lo % PGSIZE
  {}

  /** Leaf entries are only added. */
  ghost predicate LeavesStay(pages: Pages, pages': Pages, roots: set<nat>) {
    forall r, v: nat :: r in roots && v < Width(LEVELS) && LeafAt(pages, r, v) != 0 ==>
        LeafAt(pages', r, v) == LeafAt(pages, r, v)
  }

  /** Only leaf entries of one tree, below page hi, may have changed. */
  ghost predicate OnlyBelow(pages: Pages, pages': Pages, roots: set<nat>, root: nat, hi: nat) {
    forall r, v: nat :: r in roots && v < Width(LEVELS) && !(r == root && v < hi) ==>
        LeafAt(pages', r, v) == LeafAt(pages, r, v)
  }

  lemma OnlyBelowTrans(pages: Pages, pages1: Pages, pages2: Pages, roots: set<nat>, root: nat, hi: nat)
    requires OnlyBelow(pages, pages1, roots, root, hi) && OnlyBelow(pages1, pages2, roots, root, hi)
    ensures OnlyBelow(pages, pages2, roots, root, hi)
  {
    forall r, v: nat | r in roots && v < Width(LEVELS) && !(r == root && v < hi)
      ensures LeafAt(pages2, r, v) == LeafAt(pages, r, v)
    {
      assert LeafAt(pages1, r, v) == LeafAt(pages, r, v);
    }
  }

  lemma SameOnlyBelow(pages: Pages, pages': Pages, roots: set<nat>, root: nat, hi: nat)
    requires SameLeaves(pages, pages', roots)
    ensures OnlyBelow(pages, pages', roots, root, hi)
  {}

  lemma ChangedOnlyBelow(pages: Pages, pages': Pages, roots: set<nat>, root: nat, v: nat, pte: nat, hi: nat)
    requires LeafChanged(pages, pages', roots, root, v, pte) && v < hi
    ensures OnlyBelow(pages, pages', roots, root, hi)
  {}

  /** Page v is mapped for the user. */
  ghost predicate UserPage(pages: Pages, root: nat, v: nat) {
    v < TRAPFRAME && LeafAt(pages, root, v) != 0 && IsUser(LeafAt(pages, root, v))
  }

  ghost predicate UserAddr(pages: Pages, root: nat, a: nat) { UserPage(pages, root, a / PGSIZE) }

  ghost predicate UserRange(pages: Pages, root: nat, lo: nat, n: nat) {
    forall a: nat :: lo <= a < lo + n ==> UserAddr(pages, root, a)
  }

  /** Page v is mapped for the user to write. */
  ghost predicate WritablePage(pages: Pages, root: nat, v: nat) {
    UserPage(pages, root, v) && IsWritable(LeafAt(pages, root, v))
  }

  ghost predicate WritableRange(pages: Pages, root: nat, lo: nat, n: nat) {
    forall a: nat :: lo <= a < lo + n ==> WritablePage(pages, root, a / PGSIZE)
  }

  /** Page v has never been touched, but the process may: vmfault adds it. */
  ghost predicate Missing(pages: Pages, root: nat, v: nat, sz: nat) {
    v < TRAPFRAME && LeafAt(pages, root, v) == 0 && v * PGSIZE < sz
  }

  /** vmfault adds no page at v: there is one, or v lies above the size of the process. */
  ghost predicate NoFault(pages: Pages, root: nat, v: nat, sz: nat) {
    LeafAt(pages, root, v) != 0 || v * PGSIZE >= sz
  }

  ghost predicate NoFaults(pages: Pages, root: nat, lo: nat, n: nat, sz: nat) {
    forall a: nat :: lo <= a < lo + n ==> NoFault(pages, root, a / PGSIZE, sz)
  }

  lemma NoFaultsStay(pages: Pages, pages': Pages, roots: set<nat>, root: nat, lo: nat, n: nat, sz: nat)
    requires NoFaults(pages, root, lo, n, sz) && LeavesStay(pages, pages', roots) && root in roots
    requires sz <= TRAPFRAME * PGSIZE
    ensures NoFaults(pages', root, lo, n, sz)
  {
    forall a: nat | lo <= a < lo + n ensures NoFault(pages', root, a / PGSIZE, sz) {
      assert NoFault(pages, root, a / PGSIZE, sz);
      if a / PGSIZE < TRAPFRAME { UserInWidth(a / PGSIZE); }
    }
  }

  lemma StoredStep(pages: Pages, pages1: Pages, pages2: Pages, roots: set<nat>, root: nat, lo: nat, src: seq<Byte>,
                   k: nat, n: nat)
    requires k + n <= |src| && Stored(pages, pages1, roots, root, lo, src[..k])
    requires Stored(pages1, pages2, roots, root, lo + k, src[k..k + n])
    ensures Stored(pages, pages2, roots, root, lo, src[..k + n])
  {
    forall r, a: nat | r in roots && IsUserAddr(a)
      ensures ByteAt(pages2, r, a) == if r == root && lo <= a < lo + k + n then src[a - lo] else ByteAt(pages, r, a)
    {
      assert ByteAt(pages1, r, a) == if r == root && lo <= a < lo + k then src[..k][a - lo] else ByteAt(pages, r, a);
      assert ByteAt(pages2, r, a) == if r == root && lo + k <= a < lo + k + n then src[k..k + n][a - lo - k]
          else ByteAt(pages1, r, a);
    }
  }

  lemma StoredAfter(pages: Pages, pages1: Pages, pages2: Pages, roots: set<nat>, root: nat, lo: nat, src: seq<Byte>)
    requires SameBytes(pages, pages1, roots) && Stored(pages1, pages2, roots, root, lo, src)
    ensures Stored(pages, pages2, roots, root, lo, src)
  {
    forall r, a: nat | r in roots && IsUserAddr(a)
      ensures ByteAt(pages2, r, a) == if r == root && lo <= a < lo + |src| then src[a - lo] else ByteAt(pages, r, a)
    {
      assert ByteAt(pages1, r, a) == ByteAt(pages, r, a);
    }
  }

  lemma StoredBefore(pages: Pages, pages1: Pages, pages2: Pages, roots: set<nat>, root: nat, lo: nat, src: seq<Byte>)
    requires Stored(pages, pages1, roots, root, lo, src) && SameBytes(pages1, pages2, roots)
    ensures Stored(pages, pages2, roots, root, lo, src)
  {
    forall r, a: nat | r in roots && IsUserAddr(a)
      ensures ByteAt(pages2, r, a) == if r == root && lo <= a < lo + |src| then src[a - lo] else ByteAt(pages, r, a)
    {
      assert ByteAt(pages1, r, a) == if r == root && lo <= a < lo + |src| then src[a - lo] else ByteAt(pages, r, a);
    }
  }

  lemma UserAddrStays(pages: Pages, pages': Pages, roots: set<nat>, root: nat, a: nat)
    requires UserAddr(pages, root, a) && LeavesStay(pages, pages', roots) && root in roots
    ensures UserAddr(pages', root, a)
  {
    UserInWidth(a / PGSIZE);
  }

  /** The user pages found so far, and one more. */
  lemma UserRangeStep(pages: Pages, pages': Pages, roots: set<nat>, root: nat, lo: nat, k: nat, at: nat, n: nat)
    requires UserRange(pages, root, lo, k) && LeavesStay(pages, pages', roots) && root in roots
    requires at == lo + k && UserPage(pages', root, at / PGSIZE) && at % PGSIZE + n <= PGSIZE
    ensures UserRange(pages', root, lo, k + n)
  {
    forall a: nat | lo <= a < lo + (k + n) ensures UserAddr(pages', root, a) {
      if a < at { UserAddrStays(pages, pages', roots, root, a); } else { SamePage(at, n, a); }
    }
  }

  lemma UserInWidth(v: nat)
    requires v < TRAPFRAME
    ensures v < Width(LEVELS)
  {
    assert Width(1) == FANOUT && Width(2) == FANOUT * FANOUT;
  }

  lemma LeavesStayTrans(pages: Pages, pages1: Pages, pages2: Pages, roots: set<nat>)
    requires LeavesStay(pages, pages1, roots) && LeavesStay(pages1, pages2, roots)
    ensures LeavesStay(pages, pages2, roots)
  {
    forall r, v: nat | r in roots && v < Width(LEVELS) && LeafAt(pages, r, v) != 0
      ensures LeafAt(pages2, r, v) == LeafAt(pages, r, v)
    {
      assert LeafAt(pages1, r, v) == LeafAt(pages, r, v);
    }
  }

  /** x is what the address space holds from lo on. */
  ghost predicate Loaded(pages: Pages, root: nat, lo: nat, x: seq<Byte>) {
    forall i: nat :: i < |x| ==> x[i] == ByteAt(pages, root, lo + i)
  }

  /** The bytes in one page, as copyin reads them. */
  lemma LoadFromPage(pages: Pages, roots: set<nat>, owner: map<nat, Slot>, root: nat, lo: nat, n: nat)
    requires TreesOk(pages, roots, owner) && root in roots
    requires UserPage(pages, root, lo / PGSIZE) && lo % PGSIZE + n <= PGSIZE
    ensures var q := Frame(LeafAt(pages, root, lo / PGSIZE));
      && q in pages && pages[q].Data? && |pages[q].bytes| == PGSIZE
      && Loaded(pages, root, lo, pages[q].bytes[lo % PGSIZE..lo % PGSIZE + n])
  {
    UserInWidth(lo / PGSIZE);
    assert SlotOk(pages, owner, Slot(root, LEVELS, lo / PGSIZE));
    var q := Frame(LeafAt(pages, root, lo / PGSIZE));
    assert PageOk(pages[q]);
    var x := pages[q].bytes[lo % PGSIZE..lo % PGSIZE + n];
    forall i: nat | i < |x| ensures x[i] == ByteAt(pages, root, lo + i) {
      SamePage(lo, n, lo + i);
    }
  }

  lemma LoadedStep(pages: Pages, root: nat, lo: nat, x: seq<Byte>, at: nat, y: seq<Byte>)
    requires Loaded(pages, root, lo, x) && at == lo + |x| && Loaded(pages, root, at, y)
    ensures Loaded(pages, root, lo, x + y)
  {
    forall i: nat | i < |x + y| ensures (x + y)[i] == ByteAt(pages, root, lo + i) {
      if i >= |x| { assert y[i - |x|] == ByteAt(pages, root, at + (i - |x|)); }
    }
  }

  lemma LoadedSame(pages: Pages, pages': Pages, roots: set<nat>, root: nat, lo: nat, x: seq<Byte>)
    requires Loaded(pages, root, lo, x) && SameBytes(pages, pages', roots)
    requires root in roots && UserRange(pages, root, lo, |x|)
    ensures Loaded(pages', root, lo, x)
  {
    forall i: nat | i < |x| ensures x[i] == ByteAt(pages', root, lo + i) {
      assert UserAddr(pages, root, lo + i) && IsUserAddr(lo + i);
    }
  }

  // ----- how far a loop has come -----

  /** copyout has stored the first k bytes of src. */
  ghost predicate StoredTo(pages: Pages, pages': Pages, roots: set<nat>, root: nat, lo: nat, src: seq<Byte>, k: nat,
                           hi: nat) {
    && k <= |src| && OnlyBelow(pages, pages', roots, root, hi) && Stored(pages, pages', roots, root, lo, src[..k])
    && WritableRange(pages', root, lo, k)
  }

  lemma StoredNext(pages: Pages, pages1: Pages, pages2: Pages, roots: set<nat>, root: nat, lo: nat, src: seq<Byte>,
                   k: nat, hi: nat, at: nat, n: nat)
    requires StoredTo(pages, pages1, roots, root, lo, src, k, hi) && OnlyBelow(pages1, pages2, roots, root, hi)
    requires LeavesStay(pages1, pages2, roots) && root in roots && at == lo + k && k + n <= |src|
    requires Stored(pages1, pages2, roots, root, at, src[k..k + n]) && WritablePage(pages2, root, at / PGSIZE)
    requires at % PGSIZE + n <= PGSIZE
    ensures StoredTo(pages, pages2, roots, root, lo, src, k + n, hi)
  {
    OnlyBelowTrans(pages, pages1, pages2, roots, root, hi);
    StoredStep(pages, pages1, pages2, roots, root, lo, src, k, n);
    WritableRangeStep(pages1, pages2, roots, root, lo, k, at, n);
  }

  lemma StoredSame(pages: Pages, pages1: Pages, pages2: Pages, roots: set<nat>, root: nat, lo: nat, src: seq<Byte>,
                   k: nat, hi: nat)
    requires StoredTo(pages, pages1, roots, root, lo, src, k, hi) && OnlyBelow(pages1, pages2, roots, root, hi)
    requires LeavesStay(pages1, pages2, roots) && root in roots && SameBytes(pages1, pages2, roots)
    ensures StoredTo(pages, pages2, roots, root, lo, src, k, hi)
  {
    OnlyBelowTrans(pages, pages1, pages2, roots, root, hi);
    StoredBefore(pages, pages1, pages2, roots, root, lo, src[..k]);
    WritableRangeStays(pages1, pages2, roots, root, lo, k);
  }

  lemma WritableStays(pages: Pages, pages': Pages, roots: set<nat>, root: nat, v: nat)
    requires WritablePage(pages, root, v) && LeavesStay(pages, pages', roots) && root in roots
    ensures WritablePage(pages', root, v)
  {
    UserInWidth(v);
  }

  lemma WritableRangeStays(pages: Pages, pages': Pages, roots: set<nat>, root: nat, lo: nat, n: nat)
    requires WritableRange(pages, root, lo, n) && LeavesStay(pages, pages', roots) && root in roots
    ensures WritableRange(pages', root, lo, n)
  {
    forall a: nat | lo <= a < lo + n ensures WritablePage(pages', root, a / PGSIZE) {
      WritableStays(pages, pages', roots, root, a / PGSIZE);
    }
  }

  lemma WritableRangeStep(pages: Pages, pages': Pages, roots: set<nat>, root: nat, lo: nat, k: nat, at: nat, n: nat)
    requires WritableRange(pages, root, lo, k) && LeavesStay(pages, pages', roots) && root in roots
    requires at == lo + k && WritablePage(pages', root, at / PGSIZE) && at % PGSIZE + n <= PGSIZE
    ensures WritableRange(pages', root, lo, k + n)
  {
    forall a: nat | lo <= a < lo + (k + n) ensures WritablePage(pages', root, a / PGSIZE) {
      if a < at { WritableStays(pages, pages', roots, root, a / PGSIZE); } else { SamePage(at, n, a); }
    }
  }

  lemma WritableIsUser(pages: Pages, root: nat, lo: nat, n: nat)
    requires WritableRange(pages, root, lo, n)
    ensures UserRange(pages, root, lo, n)
  {
    forall a: nat | lo <= a < lo + n ensures UserAddr(pages, root, a) { assert WritablePage(pages, root, a / PGSIZE); }
  }

  // ----- copies that must succeed -----

  /** A copy to, or from, every address of the range can find its page, if there is memory for missing ones. */
  ghost predicate Reachable(pages: Pages, root: nat, lo: nat, n: nat, sz: nat, write: bool) {
    forall a: nat :: lo <= a < lo + n ==> ReachablePage(pages, root, a / PGSIZE, sz, write)
  }

  ghost predicate ReachablePage(pages: Pages, root: nat, v: nat, sz: nat, write: bool) {
    || (if write then WritablePage(pages, root, v) else UserPage(pages, root, v))
    || Missing(pages, root, v, sz)
  }

  /** The pages from v on are mapped as before. */
  ghost predicate Ahead(pages: Pages, pages': Pages, root: nat, v: nat) {
    forall w: nat :: v <= w < TRAPFRAME ==> LeafAt(pages', root, w) == LeafAt(pages, root, w)
  }

  lemma AheadStep(pages: Pages, pages1: Pages, pages2: Pages, roots: set<nat>, root: nat, v: nat)
    requires Ahead(pages, pages1, root, v) && OneLeaf(pages1, pages2, roots, root, v) && root in roots
    ensures Ahead(pages, pages2, root, v + 1)
  {
    forall w: nat | v + 1 <= w < TRAPFRAME ensures LeafAt(pages2, root, w) == LeafAt(pages, root, w) {
      UserInWidth(w);
      assert LeafAt(pages1, root, w) == LeafAt(pages, root, w);
    }
  }

  /** How many pages n bytes from lo on lie in. */
  function Spanned(lo: nat, n: nat): (k: nat) { if n == 0 then 0 else (lo + n - 1) / PGSIZE - lo / PGSIZE + 1 }

  /** A copy that started at lo has come to address at: the pages from there on are as they were, and each page
      that it has passed has cost at most LEVELS free pages. */
  ghost predicate CopyAt(pages: Pages, pages': Pages, free: nat, free': nat, root: nat, lo: nat, at: nat) {
    lo <= at && Ahead(pages, pages', root, at / PGSIZE) && free <= free' + LEVELS * (at / PGSIZE - lo / PGSIZE)
  }

  lemma CopyAtNext(pages: Pages, pages1: Pages, pages2: Pages, free: nat, free1: nat, free2: nat, roots: set<nat>,
                   root: nat, lo: nat, at: nat, n: nat)
    requires CopyAt(pages, pages1, free, free1, root, lo, at) && OneLeaf(pages1, pages2, roots, root, at / PGSIZE)
    requires root in roots && free1 <= free2 + LEVELS
    ensures n == PGSIZE - at % PGSIZE ==> CopyAt(pages, pages2, free, free2, root, lo, at + n)
  {
    AheadStep(pages, pages1, pages2, roots, root, at / PGSIZE);
    if n == PGSIZE - at % PGSIZE { assert (at + n) / PGSIZE == at / PGSIZE + 1; }
  }

  /** The range is mapped for the copy, or its own process makes it and there is memory for missing pages. */
  ghost predicate MustCopy(pages: Pages, free: nat, root: nat, own: bool, lo: nat, n: nat, sz: nat, write: bool) {
    || (if write then WritableRange(pages, root, lo, n) else UserRange(pages, root, lo, n))
    || (own && Reachable(pages, root, lo, n, sz, write) && free >= LEVELS * Spanned(lo, n))
  }

  ghost predicate MustCopyPage(pages: Pages, free: nat, root: nat, own: bool, v: nat, sz: nat, write: bool) {
    || (if write then WritablePage(pages, root, v) else UserPage(pages, root, v))
    || (own && Missing(pages, root, v, sz) && free >= LEVELS)
  }

  /** What a copy needs at the page it has come to is there, if it was for the whole range. */
  lemma CopyFinds(pages: Pages, pages': Pages, free: nat, free': nat, root: nat, own: bool, lo: nat, n: nat, sz: nat,
                  write: bool, at: nat)
    requires CopyAt(pages, pages', free, free', root, lo, at) && at < lo + n
    ensures MustCopy(pages, free, root, own, lo, n, sz, write) ==>
      MustCopyPage(pages', free', root, own, at / PGSIZE, sz, write)
  {
    var v := at / PGSIZE;
    if Reachable(pages, root, lo, n, sz, write) { assert ReachablePage(pages, root, v, sz, write); }
    if WritableRange(pages, root, lo, n) { assert WritablePage(pages, root, v); }
    if UserRange(pages, root, lo, n) { assert UserAddr(pages, root, at); }
    assert v <= (lo + n - 1) / PGSIZE;
  }

  /** copyout has stored the first k bytes, and the rest of the range is as it was. */
  ghost predicate Storing(pages: Pages, pages': Pages, free: nat, free': nat, roots: set<nat>, root: nat, lo: nat,
                          src: seq<Byte>, k: nat, hi: nat) {
    && StoredTo(pages, pages', roots, root, lo, src, k, hi)
    && (k < |src| ==> CopyAt(pages, pages', free, free', root, lo, lo + k))
  }

  lemma StoringNext(pages: Pages, pages1: Pages, pages2: Pages, free: nat, free1: nat, free2: nat, roots: set<nat>,
                    root: nat, lo: nat, src: seq<Byte>, k: nat, hi: nat, at: nat, n: nat)
    requires Storing(pages, pages1, free, free1, roots, root, lo, src, k, hi) && at == lo + k && k < |src|
    requires OnlyBelow(pages1, pages2, roots, root, hi) && LeavesStay(pages1, pages2, roots) && root in roots
    requires OneLeaf(pages1, pages2, roots, root, at / PGSIZE) && free1 <= free2 + LEVELS
    requires k + n <= |src| && (n == PGSIZE - at % PGSIZE || (k + n == |src| && at % PGSIZE + n <= PGSIZE))
    requires Stored(pages1, pages2, roots, root, at, src[k..k + n]) && WritablePage(pages2, root, at / PGSIZE)
    ensures Storing(pages, pages2, free, free2, roots, root, lo, src, k + n, hi)
  {
    StoredNext(pages, pages1, pages2, roots, root, lo, src, k, hi, at, n);
    CopyAtNext(pages, pages1, pages2, free, free1, free2, roots, root, lo, at, n);
  }

  /** mappages has mapped the pages up to v. */
  ghost predicate MappedUpTo(pages: Pages, pages': Pages, roots: set<nat>, root: nat, lo: nat, v: nat, ppn: nat,
                             flags: nat) {
    MappedTo(pages, pages', roots, root, lo, v, ppn, flags) && MappedBytes(pages, pages', roots, root, lo, v, ppn)
  }

  lemma MappedNext(pages: Pages, pages1: Pages, pages2: Pages, roots: set<nat>, owner: map<nat, Slot>, held: set<nat>,
                   root: nat, lo: nat, v: nat, ppn: nat, flags: nat, q: nat)
    requires MappedUpTo(pages, pages1, roots, root, lo, v, ppn, flags) && lo <= v && q == ppn + (v - lo)
    requires TreesOk(pages1, roots, owner) && SameData(pages1, pages2, owner, held) && flags < 1024 && Present(flags)
    requires LeafChanged(pages1, pages2, roots, root, v, MakePte(q, flags))
    requires q in held && q in pages1 && pages1[q].Data? && q in pages && pages1[q] == pages[q]
    ensures MappedUpTo(pages, pages2, roots, root, lo, v + 1, ppn, flags)
  {
    MappedStep(pages, pages1, pages2, roots, root, lo, v, ppn, flags);
    PteMaps(q, flags);
    FrameBytes(pages1, pages2, roots, owner, held, root, v, MakePte(q, flags), q);
    MappedBytesStep(pages, pages1, pages2, roots, root, lo, v, ppn, q);
  }

  lemma MappedStop(pages: Pages, pages1: Pages, pages2: Pages, roots: set<nat>, owner: map<nat, Slot>, held: set<nat>,
                   root: nat, lo: nat, v: nat, ppn: nat, flags: nat)
    requires MappedUpTo(pages, pages1, roots, root, lo, v, ppn, flags) && SameLeaves(pages1, pages2, roots)
    requires TreesOk(pages1, roots, owner) && SameData(pages1, pages2, owner, held)
    ensures MappedUpTo(pages, pages2, roots, root, lo, v, ppn, flags)
  {
    MappedSame(pages, pages1, pages2, roots, root, lo, v, ppn, flags);
    SameLeavesBytes(pages1, pages2, roots, owner, held);
    MappedBytesSame(pages, pages1, pages2, roots, root, lo, v, ppn);
  }

  /** uvmcopy has copied the pages up to v. */
  ghost predicate CopiedUpTo(pages: Pages, pages': Pages, roots: set<nat>, src: nat, dst: nat, v: nat) {
    Copied(pages, pages', roots, src, dst, v) && CopiedBytes(pages, pages', roots, src, dst, v)
  }

  /** All leaf entries but one are as before. */
  ghost predicate OneLeaf(pages: Pages, pages': Pages, roots: set<nat>, root: nat, v: nat) {
    forall r, w: nat :: r in roots && w < Width(LEVELS) && !(r == root && w == v) ==>
      LeafAt(pages', r, w) == LeafAt(pages, r, w)
  }

  lemma CopiedNext(pages: Pages, pages1: Pages, pages2: Pages, roots: set<nat>, owner: map<nat, Slot>, held: set<nat>,
                   src: nat, dst: nat, v: nat)
    requires CopiedUpTo(pages, pages1, roots, src, dst, v) && OneLeaf(pages1, pages2, roots, dst, v)
    requires TreesOk(pages1, roots, owner) && SameData(pages1, pages2, owner, held)
    requires src in roots && dst in roots && src != dst && v < TRAPFRAME && LeafAt(pages1, dst, v) == 0
    requires if LeafAt(pages1, src, v) == 0 then LeafAt(pages2, dst, v) == 0
             else CopyOf(pages2, LeafAt(pages1, src, v), LeafAt(pages2, dst, v))
    ensures CopiedUpTo(pages, pages2, roots, src, dst, v + 1)
  {
    UserInWidth(v);
    assert LeafAt(pages1, src, v) == LeafAt(pages, src, v);
    CopiedStep(pages, pages1, pages2, roots, owner, held, src, dst, v);
    PageCopy(pages1, pages2, roots, owner, held, src, dst, v);
    CopiedBytesStep(pages, pages1, pages2, roots, src, dst, v);
  }

  /** A copy that failed at page v. */
  lemma CopiedStop(pages: Pages, pages1: Pages, pages2: Pages, roots: set<nat>, owner: map<nat, Slot>, held: set<nat>,
                   src: nat, dst: nat, v: nat)
    requires CopiedUpTo(pages, pages1, roots, src, dst, v) && OneLeaf(pages1, pages2, roots, dst, v)
    requires TreesOk(pages1, roots, owner) && SameData(pages1, pages2, owner, held)
    requires src in roots && dst in roots && src != dst && v < TRAPFRAME
    requires LeafAt(pages1, dst, v) == 0 && LeafAt(pages2, dst, v) == 0
    ensures CopiedUpTo(pages, pages2, roots, src, dst, v)
  {
    CopiedSame(pages, pages1, pages2, roots, owner, held, src, dst, v);
    forall r, w: nat | r in roots && w < Width(LEVELS) ensures LeafAt(pages2, r, w) == LeafAt(pages1, r, w) {}
    SameLeavesBytes(pages1, pages2, roots, owner, held);
    forall r, a: nat | r in roots && IsUserAddr(a) ensures ByteAt(pages2, r, a) == ByteAt(pages1, r, a) {}
  }

  /** A copy that is unmapped again leaves everything as it was. */
  lemma CopiedBack(pages: Pages, pages1: Pages, pages2: Pages, roots: set<nat>, src: nat, dst: nat, hi: nat)
    requires CopiedUpTo(pages, pages1, roots, src, dst, hi) && Unmapped(pages1, pages2, roots, dst, 0, hi)
    requires Cleared(pages1, pages2, roots, dst, 0, hi) && forall v: nat :: v < hi ==> LeafAt(pages, dst, v) == 0
    ensures SameLeaves(pages, pages2, roots) && SameBytes(pages, pages2, roots)
  {
    UncopyBack(pages, pages1, pages2, roots, src, dst, hi);
    forall r, a: nat | r in roots && IsUserAddr(a) ensures ByteAt(pages2, r, a) == ByteAt(pages, r, a) {
      assert ByteAt(pages1, r, a) == ByteAt(pages, if r == dst && a / PGSIZE < hi then src else r, a);
    }
  }

  /** uvmalloc has added pages of zeroes up to v. */
  ghost predicate GrownUpTo(pages: Pages, pages': Pages, roots: set<nat>, root: nat, lo: nat, v: nat, flags: nat) {
    Grown(pages, pages', roots, root, lo, v, flags) && SameBytes(pages, pages', roots)
  }

  lemma GrownNext(pages: Pages, pages1: Pages, pages2: Pages, roots: set<nat>, owner: map<nat, Slot>, held: set<nat>,
                  root: nat, lo: nat, v: nat, q: nat, flags: nat)
    requires GrownUpTo(pages, pages1, roots, root, lo, v, flags) && lo <= v < TRAPFRAME && TreesOk(pages1, roots, owner)
    requires LeafChanged(pages1, pages2, roots, root, v, MakePte(q, flags)) && SameData(pages1, pages2, owner, held)
    requires flags < 1024 && Present(flags) && q in pages2 && pages2[q] == Fill(0) && SameBytes(pages1, pages2, roots)
    ensures GrownUpTo(pages, pages2, roots, root, lo, v + 1, flags)
  {
    GrownStep(pages, pages1, pages2, roots, owner, held, root, lo, v, q, flags);
    SameBytesTrans(pages, pages1, pages2, roots);
  }

  lemma GrownStop(pages: Pages, pages1: Pages, pages2: Pages, roots: set<nat>, owner: map<nat, Slot>, held: set<nat>,
                  root: nat, lo: nat, v: nat, flags: nat)
    requires GrownUpTo(pages, pages1, roots, root, lo, v, flags) && v < TRAPFRAME && TreesOk(pages1, roots, owner)
    requires SameLeaves(pages1, pages2, roots) && SameData(pages1, pages2, owner, held)
    requires SameBytes(pages1, pages2, roots)
    ensures GrownUpTo(pages, pages2, roots, root, lo, v, flags)
  {
    GrownSame(pages, pages1, pages2, roots, owner, held, root, lo, v, flags);
    SameBytesTrans(pages, pages1, pages2, roots);
  }

  /** Unmapping what was added leaves everything as it was. */
  lemma GrownBack(pages: Pages, pages1: Pages, pages2: Pages, roots: set<nat>, root: nat, lo: nat, hi: nat, flags: nat)
    requires GrownUpTo(pages, pages1, roots, root, lo, hi, flags) && Unmapped(pages1, pages2, roots, root, lo, hi)
    requires Cleared(pages1, pages2, roots, root, lo, hi)
    requires forall v: nat :: lo <= v < hi ==> LeafAt(pages, root, v) == 0
    ensures SameLeaves(pages, pages2, roots) && SameBytes(pages, pages2, roots)
  {
    ShrinkBack(pages, pages1, pages2, roots, root, lo, hi, flags);
    ClearedBack(pages, pages1, pages2, roots, root, lo, hi);
  }
}
