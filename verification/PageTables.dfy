/** Sv39 page tables as radix trees in physical memory (kernel/vm.c), and who owns
    each page. Addresses are page numbers; a PTE is the 64-bit word itself. */
module PageTables {
  import opened Common

  const PGSIZE: nat := 4096
  const FANOUT: nat := 512              // PTEs in a page-table page
  const LEVELS: nat := 3
  const MAXVPN: nat := 0x400_0000       // MAXVA / PGSIZE
  const TRAMPOLINE: nat := 0x3ff_ffff   // page numbers of the two pages the tree maps but does not own
  const TRAPFRAME: nat := 0x3ff_fffe

  const PTE_V: nat := 1
  const PTE_R: nat := 2
  const PTE_W: nat := 4
  const PTE_X: nat := 8
  const PTE_U: nat := 16

  /** A page holds either 512 PTEs or 4096 bytes of data. */
  datatype Page = Table(ptes: seq<nat>) | Data(bytes: seq<Byte>)

  predicate PageOk(p: Page) {
    match p
    case Table(ptes) => |ptes| == FANOUT
    case Data(bytes) => |bytes| == PGSIZE
  }

  type Pages = map<nat, Page>

  predicate Present(pte: nat) { pte % 2 == 1 }
  predicate IsLeaf(pte: nat) { (pte / 2) % 8 != 0 }       // pte & (PTE_R|PTE_W|PTE_X)
  predicate IsUser(pte: nat) { (pte / 16) % 2 == 1 }
  predicate IsWritable(pte: nat) { (pte / 4) % 2 == 1 }
  function Frame(pte: nat): (ppn: nat) { pte / 1024 }
  function Flags(pte: nat): (flags: nat) { pte % 1024 }
  function MakePte(ppn: nat, flags: nat): (pte: nat) { ppn * 1024 + flags }

  /** How many entries there are at depth d of a tree. */
  function Width(d: nat): (n: nat) {
    if d == 0 then 1 else FANOUT * Width(d - 1)
  }

  /** Entry n at depth d of the tree at root; 0 if there is no table to hold it. Depth
      3 entries are the leaf PTEs, numbered by virtual page; entry n of depth d is
      entry n % 512 of the table that entry n / 512 of depth d - 1 points to. */
  function EntryAt(pages: Pages, root: nat, d: nat, n: nat): (pte: nat) {
    if d == 0 then MakePte(root, PTE_V) else EntryOf(pages, EntryAt(pages, root, d - 1, n / FANOUT), n % FANOUT)
  }

  /** Entry i of the table that e points to, or 0. */
  function EntryOf(pages: Pages, e: nat, i: nat): (pte: nat)
    requires i < FANOUT
  {
    if Present(e) && Frame(e) in pages && pages[Frame(e)].Table? && |pages[Frame(e)].ptes| == FANOUT
    then pages[Frame(e)].ptes[i] else 0
  }

  /** A place in a tree that refers to a page. */
  datatype Slot = Slot(root: nat, d: nat, n: nat)

  predicate Kept(vpn: nat) { vpn == TRAMPOLINE || vpn == TRAPFRAME }

  /** An entry is 0 or valid; inner entries point to owned tables; leaf entries have a
      permission and point to owned data pages, except that the trampoline and the
      trapframe are mapped for the kernel only and not owned. */
  ghost predicate SlotOk(pages: Pages, owner: map<nat, Slot>, s: Slot) {
    var e := EntryAt(pages, s.root, s.d, s.n);
    e != 0 ==>
      && Present(e)
      && if s.d == LEVELS then
           IsLeaf(e) && s.n < MAXVPN
           && if Kept(s.n) then !IsUser(e) else Owns(pages, owner, s, Frame(e)) && pages[Frame(e)].Data?
         else Flags(e) == PTE_V && Owns(pages, owner, s, Frame(e)) && pages[Frame(e)].Table?
  }

  ghost predicate Owns(pages: Pages, owner: map<nat, Slot>, s: Slot, p: nat) {
    p in pages && p in owner && owner[p] == s
  }

  predicate InTree(roots: set<nat>, s: Slot) {
    s.root in roots && s.d <= LEVELS && s.n < Width(s.d)
  }

  ghost predicate OwnerOk(pages: Pages, roots: set<nat>, owner: map<nat, Slot>, p: nat) {
    p in owner ==>
      && p in pages && InTree(roots, owner[p]) && (owner[p].d == LEVELS ==> !Kept(owner[p].n))
      && var e := EntryAt(pages, owner[p].root, owner[p].d, owner[p].n); Present(e) && Frame(e) == p
  }

  ghost predicate TreesOk(pages: Pages, roots: set<nat>, owner: map<nat, Slot>) {
    && (forall p :: p in pages ==> PageOk(pages[p]))
    && (forall r :: r in roots ==> Owns(pages, owner, Slot(r, 0, 0), r) && pages[r].Table?)
    && (forall s :: InTree(roots, s) ==> SlotOk(pages, owner, s))
    && (forall p :: OwnerOk(pages, roots, owner, p))
  }

  // ----- changing one entry -----

  function SetPte(pages: Pages, p: nat, i: nat, pte: nat): (r: Pages)
    requires p in pages && pages[p].Table? && i < |pages[p].ptes|
  {
    pages[p := Table(pages[p].ptes[i := pte])]
  }

  // ----- indices -----

  /** PX(level, va): nine bits of the virtual page number. */
  function PX(level: nat, vpn: nat): (i: nat)
    requires level < LEVELS
    ensures i < FANOUT
  {
    (if level == 2 then vpn / 0x4_0000 else if level == 1 then vpn / 0x200 else vpn) % FANOUT
  }

  /** The entry at depth d on the way to leaf entry vpn. */
  function OnPath(vpn: nat, d: nat): (n: nat)
    requires d <= LEVELS
    decreases LEVELS - d
  {
    if d == LEVELS then vpn else OnPath(vpn, d + 1) / FANOUT
  }

  lemma PathIndex(vpn: nat, d: nat)
    requires d < LEVELS && vpn < MAXVPN
    ensures PX(LEVELS - 1 - d, vpn) == OnPath(vpn, d + 1) % FANOUT
    ensures OnPath(vpn, d + 1) == OnPath(vpn, d) * FANOUT + PX(LEVELS - 1 - d, vpn)
    ensures OnPath(vpn, 0) == 0
  {
    assert OnPath(vpn, 2) == vpn / FANOUT && OnPath(vpn, 1) == vpn / FANOUT / FANOUT;
  }
}
