/** How changes to single pages and single PTEs change the trees. */
module PageTrees {
  import opened PageTables

  const ZERO_TABLE: Page := Table(Zeros())

  function Zeros(): (z: seq<nat>)
    ensures |z| == FANOUT && forall i: nat :: i < FANOUT ==> z[i] == 0
  {
    seq(FANOUT, _ => 0)
  }

  /** The slot that entry i of the table owned by t stands for. */
  function Child(t: Slot, i: nat): (c: Slot) { Slot(t.root, t.d + 1, t.n * FANOUT + i) }

  function Parent(s: Slot): (t: Slot)
    requires s.d > 0
  {
    Slot(s.root, s.d - 1, s.n / FANOUT)
  }

  lemma ParentInTree(roots: set<nat>, s: Slot)
    requires InTree(roots, s) && s.d > 0
    ensures InTree(roots, Parent(s))
  {
    assert Width(s.d) == FANOUT * Width(s.d - 1);
  }

  lemma ChildParent(s: Slot)
    requires s.d > 0
    ensures Child(Parent(s), s.n % FANOUT) == s
  {}

  lemma ParentChild(t: Slot, i: nat)
    requires i < FANOUT
    ensures Parent(Child(t, i)) == t && Child(t, i).n % FANOUT == i
  {}

  /** The table that holds entry s, when there is one. */
  lemma Holder(pages: Pages, roots: set<nat>, owner: map<nat, Slot>, s: Slot)
    requires TreesOk(pages, roots, owner) && InTree(roots, s) && s.d > 0
    ensures var e := EntryAt(pages, s.root, s.d - 1, s.n / FANOUT);
      && (e == 0 || (Present(e) && Owns(pages, owner, Parent(s), Frame(e)) && pages[Frame(e)].Table?
                     && |pages[Frame(e)].ptes| == FANOUT))
      && EntryAt(pages, s.root, s.d, s.n) == if e == 0 then 0 else pages[Frame(e)].ptes[s.n % FANOUT]
  {
    ParentInTree(roots, s);
    assert s.d > 1 ==> SlotOk(pages, owner, Parent(s));
    assert s.d == 1 ==> Owns(pages, owner, Slot(s.root, 0, 0), s.root);
  }

  /** Changing pages that are not tables of any tree changes no entry. */
  lemma {:induction false} DataFrame(pages: Pages, pages': Pages, roots: set<nat>, owner: map<nat, Slot>, s: Slot)
    requires TreesOk(pages, roots, owner) && InTree(roots, s)
    requires forall p :: p in pages && p in owner && owner[p].d < LEVELS ==> p in pages' && pages'[p] == pages[p]
    ensures EntryAt(pages', s.root, s.d, s.n) == EntryAt(pages, s.root, s.d, s.n)
    decreases s.d
  {
    if s.d > 0 {
      ParentInTree(roots, s);
      DataFrame(pages, pages', roots, owner, Parent(s));
      Holder(pages, roots, owner, s);
    }
  }

  /** Setting an entry of a last-level table changes no entry above the leaves. */
  lemma {:induction false} InnerKept(pages: Pages, roots: set<nat>, owner: map<nat, Slot>, p: nat, i: nat, pte: nat,
                                     s: Slot)
    requires TreesOk(pages, roots, owner) && InTree(roots, s) && p in pages && p in owner && i < FANOUT && s.d < LEVELS
    requires owner[p].d == LEVELS - 1 && pages[p].Table? && |pages[p].ptes| == FANOUT
    ensures EntryAt(SetPte(pages, p, i, pte), s.root, s.d, s.n) == EntryAt(pages, s.root, s.d, s.n)
    decreases s.d
  {
    if s.d > 0 {
      ParentInTree(roots, s);
      InnerKept(pages, roots, owner, p, i, pte, Parent(s));
      Holder(pages, roots, owner, s);
    }
  }

  /** Setting entry i of a last-level table changes that leaf entry only. */
  lemma LeafSet(pages: Pages, roots: set<nat>, owner: map<nat, Slot>, p: nat, i: nat, pte: nat, s: Slot)
    requires TreesOk(pages, roots, owner) && InTree(roots, s) && p in pages && p in owner && i < FANOUT
    requires owner[p].d == LEVELS - 1 && pages[p].Table? && |pages[p].ptes| == FANOUT
    ensures EntryAt(SetPte(pages, p, i, pte), s.root, s.d, s.n) ==
            if s == Child(owner[p], i) then pte else EntryAt(pages, s.root, s.d, s.n)
  {
    if s.d < LEVELS {
      InnerKept(pages, roots, owner, p, i, pte, s);
    } else {
      ParentInTree(roots, s);
      InnerKept(pages, roots, owner, p, i, pte, Parent(s));
      Holder(pages, roots, owner, s);
      ChildParent(s);
      assert OwnerOk(pages, roots, owner, p);
    }
  }

  /** The entry that a slot of a table holds. */
  lemma EntryInTable(pages: Pages, roots: set<nat>, owner: map<nat, Slot>, p: nat, i: nat)
    requires TreesOk(pages, roots, owner) && p in owner && owner[p].d < LEVELS && i < FANOUT
    requires p in pages && pages[p].Table? && |pages[p].ptes| == FANOUT
    ensures var c := Child(owner[p], i); EntryAt(pages, c.root, c.d, c.n) == pages[p].ptes[i]
  {
    assert OwnerOk(pages, roots, owner, p);
    var c := Child(owner[p], i);
    assert c.n / FANOUT == owner[p].n && c.n % FANOUT == i;
  }

  lemma PteMaps(q: nat, flags: nat)
    requires flags < 1024 && Present(flags)
    ensures MakePte(q, flags) != 0 && Frame(MakePte(q, flags)) == q
  {
    assert flags != 0;
  }

  lemma PteFrame(q: nat, flags: nat)
    requires flags < 1024
    ensures Frame(MakePte(q, flags)) == q && Flags(MakePte(q, flags)) == flags
    ensures Present(MakePte(q, flags)) == Present(flags)
  {
    assert q * 1024 + flags == 2 * (512 * q) + flags;
  }

  /** What the linked table's neighbours hold. */
  lemma LinkedEntry(pages: Pages, owner: map<nat, Slot>, p: nat, i: nat, q: nat, e: nat, t: Slot, j: nat)
    requires p in pages && p in owner && i < FANOUT && pages[p].Table? && |pages[p].ptes| == FANOUT
    requires q in pages && q !in owner && j < FANOUT
    requires e == 0 || (Present(e) && Owns(pages, owner, t, Frame(e)) && pages[Frame(e)].Table?
        && |pages[Frame(e)].ptes| == FANOUT)
    ensures EntryOf(SetPte(pages, p, i, MakePte(q, PTE_V))[q := ZERO_TABLE], e, j) ==
            if e != 0 && Frame(e) == p && j == i then MakePte(q, PTE_V) else EntryOf(pages, e, j)
  {}

  function Entry(pages: Pages, s: Slot): (pte: nat) { EntryAt(pages, s.root, s.d, s.n) }

  lemma EntryStep(pages: Pages, s: Slot)
    requires s.d > 0
    ensures Entry(pages, s) == EntryOf(pages, Entry(pages, Parent(s)), s.n % FANOUT)
  {}

  function Linked(pages: Pages, p: nat, i: nat, q: nat): (r: Pages)
    requires p in pages && pages[p].Table? && i < |pages[p].ptes|
  {
    SetPte(pages, p, i, MakePte(q, PTE_V))[q := ZERO_TABLE]
  }

  ghost predicate Linkable(pages: Pages, roots: set<nat>, owner: map<nat, Slot>, p: nat, i: nat, q: nat) {
    && TreesOk(pages, roots, owner) && p in pages && p in owner && i < FANOUT
    && owner[p].d < LEVELS - 1 && pages[p].Table? && |pages[p].ptes| == FANOUT && pages[p].ptes[i] == 0
    && q in pages && q !in owner
  }

  /** Nothing below the new table. */
  lemma LinkBelow(pages: Pages, roots: set<nat>, owner: map<nat, Slot>, p: nat, i: nat, q: nat, s: Slot)
    requires Linkable(pages, roots, owner, p, i, q) && s.d > 0 && Parent(s) == Child(owner[p], i)
    requires Entry(Linked(pages, p, i, q), Parent(s)) == MakePte(q, PTE_V)
    ensures Entry(Linked(pages, p, i, q), s) == 0 && Entry(pages, s) == 0
  {
    EntryStep(pages, s);
    EntryStep(Linked(pages, p, i, q), s);
    EntryInTable(pages, roots, owner, p, i);
    PteFrame(q, PTE_V);
  }

  lemma LinkBeside(pages: Pages, roots: set<nat>, owner: map<nat, Slot>, p: nat, i: nat, q: nat, s: Slot)
    requires Linkable(pages, roots, owner, p, i, q) && InTree(roots, s) && s.d > 0
    requires Entry(Linked(pages, p, i, q), Parent(s)) == Entry(pages, Parent(s))
    ensures Entry(Linked(pages, p, i, q), s) == if s == Child(owner[p], i) then MakePte(q, PTE_V) else Entry(pages, s)
  {
    var t, j, e := Parent(s), s.n % FANOUT, Entry(pages, Parent(s));
    EntryStep(pages, s);
    EntryStep(Linked(pages, p, i, q), s);
    Holder(pages, roots, owner, s);
    LinkedEntry(pages, owner, p, i, q, e, t, j);
    ChildParent(s);
    ParentChild(owner[p], i);
    assert OwnerOk(pages, roots, owner, p);
    assert s == Child(owner[p], i) <==> t == owner[p] && j == i;
  }

  /** Linking a zeroed table into an empty inner entry changes that entry only. */
  lemma {:induction false} LinkSet(pages: Pages, roots: set<nat>, owner: map<nat, Slot>, p: nat, i: nat, q: nat,
                                   s: Slot)
    requires Linkable(pages, roots, owner, p, i, q) && InTree(roots, s)
    ensures Entry(Linked(pages, p, i, q), s) == if s == Child(owner[p], i) then MakePte(q, PTE_V) else Entry(pages, s)
    decreases s.d
  {
    if s.d > 0 {
      ParentInTree(roots, s);
      LinkSet(pages, roots, owner, p, i, q, Parent(s));
      if Parent(s) == Child(owner[p], i) {
        LinkBelow(pages, roots, owner, p, i, q, s);
      } else {
        LinkBeside(pages, roots, owner, p, i, q, s);
      }
    }
  }

  // ----- single changes keep the trees well formed -----

  ghost predicate IsTable(pages: Pages, owner: map<nat, Slot>, p: nat, d: nat) {
    p in pages && p in owner && owner[p].d == d && pages[p].Table? && |pages[p].ptes| == FANOUT
  }

  lemma TableInTree(pages: Pages, roots: set<nat>, owner: map<nat, Slot>, p: nat, i: nat)
    requires TreesOk(pages, roots, owner) && p in owner && owner[p].d < LEVELS && i < FANOUT
    ensures InTree(roots, Child(owner[p], i))
  {
    assert OwnerOk(pages, roots, owner, p);
    assert Width(owner[p].d + 1) == FANOUT * Width(owner[p].d);
  }

  lemma PteLeaf(q: nat, flags: nat)
    requires flags < 1024
    ensures IsLeaf(MakePte(q, flags)) == IsLeaf(flags)
  {
    assert MakePte(q, flags) / 2 == 8 * (64 * q) + flags / 2;
  }

  lemma PteUser(q: nat, flags: nat)
    requires flags < 1024
    ensures IsUser(MakePte(q, flags)) == IsUser(flags)
  {
    assert MakePte(q, flags) / 16 == 2 * (32 * q) + flags / 16;
  }

  lemma PteWritable(q: nat, flags: nat)
    requires flags < 1024
    ensures IsWritable(MakePte(q, flags)) == IsWritable(flags)
  {
    assert MakePte(q, flags) / 4 == 2 * (128 * q) + flags / 4;
  }

  ghost predicate Mappable(pages: Pages, owner: map<nat, Slot>, p: nat, i: nat, q: nat, flags: nat) {
    && IsTable(pages, owner, p, LEVELS - 1) && i < FANOUT && pages[p].ptes[i] == 0 && Child(owner[p], i).n < MAXVPN
    && flags < 1024 && Present(flags) && IsLeaf(flags)
    && if Kept(Child(owner[p], i).n) then !IsUser(flags) else q in pages && q !in owner && pages[q].Data?
  }

  function MapOwner(owner: map<nat, Slot>, c: Slot, q: nat): (r: map<nat, Slot>) {
    if Kept(c.n) then owner else owner[q := c]
  }

  lemma MapSlotOk(pages: Pages, roots: set<nat>, owner: map<nat, Slot>, p: nat, i: nat, q: nat, flags: nat, s: Slot)
    requires TreesOk(pages, roots, owner) && Mappable(pages, owner, p, i, q, flags) && InTree(roots, s)
    ensures SlotOk(SetPte(pages, p, i, MakePte(q, flags)), MapOwner(owner, Child(owner[p], i), q), s)
  {
    PteFrame(q, flags);
    PteLeaf(q, flags);
    PteUser(q, flags);
    LeafSet(pages, roots, owner, p, i, MakePte(q, flags), s);
    assert SlotOk(pages, owner, s);
  }

  lemma MapOwnerOk(pages: Pages, roots: set<nat>, owner: map<nat, Slot>, p: nat, i: nat, q: nat, flags: nat, r: nat)
    requires TreesOk(pages, roots, owner) && Mappable(pages, owner, p, i, q, flags)
    ensures OwnerOk(SetPte(pages, p, i, MakePte(q, flags)), roots, MapOwner(owner, Child(owner[p], i), q), r)
  {
    var c := Child(owner[p], i);
    PteFrame(q, flags);
    TableInTree(pages, roots, owner, p, i);
    EntryInTable(pages, roots, owner, p, i);
    if r in owner && (r != q || Kept(c.n)) {
      assert OwnerOk(pages, roots, owner, r);
      LeafSet(pages, roots, owner, p, i, MakePte(q, flags), owner[r]);
    } else {
      LeafSet(pages, roots, owner, p, i, MakePte(q, flags), c);
    }
  }

  /** mappages fills an empty leaf entry. */
  lemma MapLeaf(pages: Pages, roots: set<nat>, owner: map<nat, Slot>, p: nat, i: nat, q: nat, flags: nat)
    requires TreesOk(pages, roots, owner) && Mappable(pages, owner, p, i, q, flags)
    ensures TreesOk(SetPte(pages, p, i, MakePte(q, flags)), roots, MapOwner(owner, Child(owner[p], i), q))
  {
    var pages', owner' := SetPte(pages, p, i, MakePte(q, flags)), MapOwner(owner, Child(owner[p], i), q);
    forall s | InTree(roots, s) ensures SlotOk(pages', owner', s) { MapSlotOk(pages, roots, owner, p, i, q, flags, s); }
    forall r ensures OwnerOk(pages', roots, owner', r) { MapOwnerOk(pages, roots, owner, p, i, q, flags, r); }
    forall r | r in roots ensures Owns(pages', owner', Slot(r, 0, 0), r) && pages'[r].Table? {
      assert Owns(pages, owner, Slot(r, 0, 0), r);
    }
  }

  /** uvmunmap clears a leaf entry. */
  lemma UnmapLeaf(pages: Pages, roots: set<nat>, owner: map<nat, Slot>, p: nat, i: nat)
    requires TreesOk(pages, roots, owner) && IsTable(pages, owner, p, LEVELS - 1) && i < FANOUT && pages[p].ptes[i] != 0
    ensures var c, q := Child(owner[p], i), Frame(pages[p].ptes[i]);
      && Present(pages[p].ptes[i]) && (!Kept(c.n) ==> Owns(pages, owner, c, q) && pages[q].Data?)
      && TreesOk(SetPte(pages, p, i, 0), roots, if Kept(c.n) then owner else owner - {q})
  {
    var c, q := Child(owner[p], i), Frame(pages[p].ptes[i]);
    var pages' := SetPte(pages, p, i, 0);
    var owner' := if Kept(c.n) then owner else owner - {q};
    TableInTree(pages, roots, owner, p, i);
    EntryInTable(pages, roots, owner, p, i);
    assert SlotOk(pages, owner, c);
    forall s | InTree(roots, s) ensures SlotOk(pages', owner', s) {
      LeafSet(pages, roots, owner, p, i, 0, s);
      assert SlotOk(pages, owner, s);
    }
    forall r | r in owner' ensures OwnerOk(pages', roots, owner', r) {
      assert OwnerOk(pages, roots, owner, r);
      LeafSet(pages, roots, owner, p, i, 0, owner'[r]);
    }
    forall r | r in roots ensures Owns(pages', owner', Slot(r, 0, 0), r) && pages'[r].Table? {
      assert Owns(pages, owner, Slot(r, 0, 0), r);
    }
  }

  lemma LinkSlotOk(pages: Pages, roots: set<nat>, owner: map<nat, Slot>, p: nat, i: nat, q: nat, s: Slot)
    requires TreesOk(pages, roots, owner) && p in owner
    requires owner[p].d < LEVELS - 1 && IsTable(pages, owner, p, owner[p].d)
    requires i < FANOUT && pages[p].ptes[i] == 0 && q in pages && q !in owner && InTree(roots, s)
    ensures SlotOk(SetPte(pages, p, i, MakePte(q, PTE_V))[q := ZERO_TABLE], owner[q := Child(owner[p], i)], s)
  {
    LinkSet(pages, roots, owner, p, i, q, s);
    PteFrame(q, PTE_V);
    assert SlotOk(pages, owner, s);
  }

  lemma LinkOwnerOk(pages: Pages, roots: set<nat>, owner: map<nat, Slot>, p: nat, i: nat, q: nat, r: nat)
    requires TreesOk(pages, roots, owner) && p in owner
    requires owner[p].d < LEVELS - 1 && IsTable(pages, owner, p, owner[p].d)
    requires i < FANOUT && pages[p].ptes[i] == 0 && q in pages && q !in owner
    ensures OwnerOk(SetPte(pages, p, i, MakePte(q, PTE_V))[q := ZERO_TABLE], roots, owner[q := Child(owner[p], i)], r)
  {
    PteFrame(q, PTE_V);
    TableInTree(pages, roots, owner, p, i);
    if r == q {
      LinkSet(pages, roots, owner, p, i, q, Child(owner[p], i));
    } else if r in owner {
      assert OwnerOk(pages, roots, owner, r);
      EntryInTable(pages, roots, owner, p, i);
      LinkSet(pages, roots, owner, p, i, q, owner[r]);
    }
  }

  /** walk adds a page-table page. */
  lemma LinkTable(pages: Pages, roots: set<nat>, owner: map<nat, Slot>, p: nat, i: nat, q: nat)
    requires TreesOk(pages, roots, owner) && p in owner
    requires owner[p].d < LEVELS - 1 && IsTable(pages, owner, p, owner[p].d)
    requires i < FANOUT && pages[p].ptes[i] == 0 && q in pages && q !in owner
    ensures TreesOk(SetPte(pages, p, i, MakePte(q, PTE_V))[q := ZERO_TABLE], roots, owner[q := Child(owner[p], i)])
  {
    var pages' := SetPte(pages, p, i, MakePte(q, PTE_V))[q := ZERO_TABLE];
    var owner' := owner[q := Child(owner[p], i)];
    forall s | InTree(roots, s) ensures SlotOk(pages', owner', s) { LinkSlotOk(pages, roots, owner, p, i, q, s); }
    forall r ensures OwnerOk(pages', roots, owner', r) { LinkOwnerOk(pages, roots, owner, p, i, q, r); }
    forall r | r in roots ensures Owns(pages', owner', Slot(r, 0, 0), r) && pages'[r].Table? {
      assert Owns(pages, owner, Slot(r, 0, 0), r);
    }
  }

  /** Writing pages that are not tables: unowned ones, or the bytes of a mapped page. */
  lemma DataWrite(pages: Pages, pages': Pages, roots: set<nat>, owner: map<nat, Slot>)
    requires TreesOk(pages, roots, owner) && pages'.Keys == pages.Keys
    requires forall p :: p in pages ==> PageOk(pages'[p])
    requires forall p :: p in pages && p in owner ==>
               if owner[p].d < LEVELS then pages'[p] == pages[p] else pages'[p].Data? == pages[p].Data?
    ensures TreesOk(pages', roots, owner)
    ensures forall s :: InTree(roots, s) ==> EntryAt(pages', s.root, s.d, s.n) == EntryAt(pages, s.root, s.d, s.n)
  {
    forall s | InTree(roots, s)
      ensures EntryAt(pages', s.root, s.d, s.n) == EntryAt(pages, s.root, s.d, s.n) && SlotOk(pages', owner, s)
    {
      DataFrame(pages, pages', roots, owner, s);
      assert SlotOk(pages, owner, s);
    }
    forall p | p in owner ensures OwnerOk(pages', roots, owner, p) {
      assert OwnerOk(pages, roots, owner, p);
      DataFrame(pages, pages', roots, owner, owner[p]);
    }
    forall r | r in roots ensures Owns(pages', owner, Slot(r, 0, 0), r) && pages'[r].Table? {
      assert Owns(pages, owner, Slot(r, 0, 0), r);
    }
  }
}
