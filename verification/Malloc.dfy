/** The K&R allocator (user/umalloc.c). Memory is addressed in units of
    sizeof(Header); sbrk's answers are parameters. */
module Malloc {
  import opened Common
  import opened FreeList

  datatype Header = Header(ptr: nat, size: nat)

  const MIN_CORE: nat := 4096

  /** The entry after entry k of a circular list of n entries. */
  function Next(k: nat, n: nat): (r: nat) { if k + 1 < n then k + 1 else 0 }

  /** The header at each entry has its size and points to the next entry. */
  ghost predicate ListMem(mem: map<nat, Header>, fl: seq<Blk>) {
    forall k: nat :: k < |fl| ==> EntryMem(mem, fl, k)
  }

  ghost predicate EntryMem(mem: map<nat, Header>, fl: seq<Blk>, k: nat)
    requires k < |fl|
  {
    fl[k].addr in mem && mem[fl[k].addr] == Header(fl[Next(k, |fl|)].addr, fl[k].size)
  }

  ghost predicate LiveMem(mem: map<nat, Header>, live: set<Blk>) {
    forall b :: b in live ==> b.addr in mem && mem[b.addr].size == b.size
  }

  /** The units that sbrk has given out are the free ones and the ones in use. */
  ghost predicate UnitsOk(units: iset<nat>, fl: seq<Blk>, live: set<Blk>) {
    forall u: nat :: u in units <==> IsFree(fl, u) || InUse(live, u)
  }

  ghost predicate SameAt(mem: map<nat, Header>, mem': map<nat, Header>, u: nat) {
    (u in mem <==> u in mem') && (u in mem ==> mem'[u] == mem[u])
  }

  /** No unit of a block in use has been written, but those in except. */
  ghost predicate Undisturbed(mem: map<nat, Header>, mem': map<nat, Header>, live: set<Blk>, except: set<nat>) {
    forall u: nat :: InUse(live, u) && u !in except ==> SameAt(mem, mem', u)
  }

  ghost predicate Has(fl: seq<Blk>, k: nat, p: nat) { k < |fl| && fl[k].addr == p }

  /** The units behind the header of b hold nbytes bytes, and the last of them is needed. */
  predicate HasRoom(b: Blk, nbytes: nat) { nbytes <= 16 * (b.size - 1) < nbytes + 16 }

  class Heap {
    const base: nat
    var freep: nat              // 0 before the first call
    var mem: map<nat, Header>   // units, read as headers; a program may store anything behind the header of its block
    ghost var fl: seq<Blk>
    ghost var live: set<Blk>
    ghost var units: iset<nat>    // what the list and the blocks in use are made of
    ghost var granted: iset<nat>  // what sbrk has given out
    ghost var brk: nat          // the end of the last region from sbrk

    ghost predicate Valid()
      reads this
    {
      && 0 < base < brk && Ordered(fl) && fl[0].addr == base && LiveOk(fl, live) && LiveMem(mem, live)
      && UnitsOk(units, fl, live) && (forall u :: u in units ==> u < brk) && (forall u :: u in granted ==> u < brk)
      && (if freep == 0 then fl == [Blk(base, 0)] && live == {}
          else ListMem(mem, fl) && exists k: nat :: Has(fl, k, freep))
    }

    /** The allocator hands out only memory it has been given. */
    ghost predicate Backed()
      reads this
    {
      units <= granted
    }

    constructor (base: nat, brk: nat)
      requires 0 < base < brk
      ensures Valid() && Backed() && this.base == base && live == {} && fl == [Blk(base, 0)] && this.brk == brk
    {
      this.base := base;
      freep, mem := 0, map[];
      fl, live, units, granted, this.brk := [Blk(base, 0)], {}, iset{}, iset{}, brk;
    }

    /** free's search: the entry of the circular list after which bp belongs. */
    method FindPlace(bp: nat) returns (p: nat, ghost k: nat)
      requires Valid() && freep != 0 && base < bp && forall k: nat :: k < |fl| ==> fl[k].addr != bp
      ensures Place(fl, k, bp) && p == fl[k].addr
    {
      ghost var n := |fl|;
      ghost var t := PlaceOf(fl, bp);
      p := freep;
      ghost var f: nat :| Has(fl, f, freep);
      k := f;
      ghost var left := if t >= k then t - k else t - k + n;
      while !(bp > p && bp < mem[p].ptr)
        invariant Has(fl, k, p) && EntryMem(mem, fl, k)
        invariant left == if t >= k then t - k else t - k + n
        decreases left
      {
        OnlyPlace(fl, t, k, bp);
        if p >= mem[p].ptr && (bp > p || bp < mem[p].ptr) { return; }
        p := mem[p].ptr;
        k := Next(k, n);
        left := left - 1;
      }
      OnlyPlace(fl, t, k, bp);
    }

    /** free's changes to the headers at bp and at its predecessor p. */
    method Relink(p: nat, bp: nat)
      requires p in mem && bp in mem && mem[p].ptr in mem && p != bp
      modifies this`mem, this`freep
      ensures mem == Freed(old(mem), p, bp) && freep == p
    {
      var q := mem[p].ptr;
      if bp + mem[bp].size == q {
        mem := mem[bp := Header(mem[q].ptr, mem[bp].size + mem[q].size)];
      } else {
        mem := mem[bp := Header(q, mem[bp].size)];
      }
      if p + mem[p].size == bp {
        mem := mem[p := Header(mem[bp].ptr, mem[p].size + mem[bp].size)];
      } else {
        mem := mem[p := Header(bp, mem[p].size)];
      }
      freep := p;
    }

    /** free: puts the block back, joined with the free neighbours it touches. */
    method Free(ap: nat) returns (ghost k: nat)
      requires Valid() && freep != 0 && 0 < ap && ap - 1 in mem && Blk(ap - 1, mem[ap - 1].size) in live
      modifies this
      ensures Valid() && freep != 0 && units == old(units) && granted == old(granted) && brk == old(brk)
      ensures live == old(live) - {Blk(ap - 1, old(mem)[ap - 1].size)}
      ensures Place(old(fl), k, ap - 1) && fl == Insert(old(fl), k, Blk(ap - 1, old(mem)[ap - 1].size))
      ensures Has(fl, k, freep) && Undisturbed(old(mem), mem, old(live), {ap - 1})
    {
      var bp := ap - 1;
      ghost var b := Blk(bp, mem[bp].size);
      assert LiveBlk(fl, b);
      NotListed(fl, b);
      var p;
      p, k := FindPlace(bp);
      FreedMem(mem, fl, k, b);
      FreeKeeps(units, fl, k, b, live);
      LiveMemKept(mem, Freed(mem, p, bp), fl, live, k, b);
      if k > 0 { assert Before(fl[0], fl[k]); }
      FreedUndisturbed(mem, fl, live, k, p, bp);
      Relink(p, bp);
      fl, live := Insert(fl, k, b), live - {b};
      assert Has(fl, k, freep);
    }

    /** morecore: a region from sbrk, if it gives one, becomes a free block. start is
        what sbrk returns; regions come in ascending order. */
    method Morecore(nunits: nat, start: Option<nat>) returns (p: nat)
      requires Valid() && freep != 0 && (start.Some? ==> brk <= start.value)
      modifies this
      ensures Valid() && freep != 0 && live == old(live) && Undisturbed(old(mem), mem, live, {})
      ensures start == None ==>
        p == 0 && fl == old(fl) && units == old(units) && granted == old(granted) && freep == old(freep)
      ensures start.Some? ==> p == freep && Fits(fl, nunits)
      ensures start.Some? ==> units == old(units) + Units(Region(start.value, nunits))
      ensures start.Some? ==> granted == AfterSbrk(old(granted), start.value, SbrkArg(Region(start.value, nunits).size))
    {
      var nu := nunits;
      if nu < MIN_CORE { nu := MIN_CORE; }
      if start == None { return 0; }
      SbrkArgBound(nu);
      ghost var fl0, b := fl, Blk(start.value, nu);
      ghost var k := AddRegion(start.value, nu);
      HomeHolds(fl0, k, b);
      assert fl[Home(fl0, k, b)].size >= nunits;
      granted := AfterSbrk(granted, start.value, SbrkArg(nu));
      p := freep;
    }

    /** A region that lies beyond all others becomes a free block. */
    method AddRegion(hp: nat, nu: nat) returns (ghost k: nat)
      requires Valid() && freep != 0 && brk <= hp && nu > 0
      modifies this
      ensures Valid() && freep != 0 && live == old(live) && granted == old(granted) && brk == hp + nu
      ensures units == old(units) + Units(Blk(hp, nu)) && Undisturbed(old(mem), mem, live, {})
      ensures Place(old(fl), k, hp) && LiveBlk(old(fl), Blk(hp, nu)) && fl == Insert(old(fl), k, Blk(hp, nu))
    {
      ghost var b, mem0, live0 := Blk(hp, nu), mem, live;
      RegionOk(units, brk, mem, fl, live, b);
      RegionUnused(units, brk, fl, live, b);
      mem := mem[hp := Header(0, nu)];
      live, units, brk := live + {b}, units + Units(b), hp + nu;
      ghost var mem1 := mem;
      k := Free(hp + 1);
      RegionUndisturbed(mem0, mem1, mem, live0, b);
    }

    // ----- malloc -----

    /** Takes n units from the end of free block k at p, whose predecessor is prevp. */
    method Take(prevp: nat, p: nat, n: nat, ghost k: nat) returns (ap: nat)
      requires Valid() && freep != 0 && 0 < k < |fl| && Has(fl, k - 1, prevp) && Has(fl, k, p) && 0 < n <= fl[k].size
      modifies this
      ensures Valid() && freep == prevp && units == old(units) && granted == old(granted)
      ensures ap > 0 && live == old(live) + {Blk(ap - 1, n)} && Blk(ap - 1, n) !in old(live)
      ensures Undisturbed(old(mem), mem, old(live), {})
    {
      assert EntryMem(mem, fl, k);
      if mem[p].size == n {
        TakeAll(prevp, p, k);
        return p + 1;
      }
      ap := TakeTail(prevp, p, n, k);
    }

    method TakeAll(prevp: nat, p: nat, ghost k: nat)
      requires Valid() && freep != 0 && 0 < k < |fl| && Has(fl, k - 1, prevp) && Has(fl, k, p)
      modifies this
      ensures Valid() && freep == prevp && units == old(units) && granted == old(granted)
      ensures live == old(live) + {old(fl)[k]} && old(fl)[k] !in old(live) && Undisturbed(old(mem), mem, old(live), {})
    {
      assert EntryMem(mem, fl, k) && EntryMem(mem, fl, k - 1);
      ExactKeeps(units, mem, fl, live, k);
      ListedUndisturbed(mem, fl, live, k - 1, Header(mem[p].ptr, mem[prevp].size));
      mem := mem[prevp := Header(mem[p].ptr, mem[prevp].size)];
      live, fl := live + {fl[k]}, Remove(fl, k);
      freep := prevp;
      assert Has(fl, k - 1, freep);
    }

    method TakeTail(prevp: nat, p: nat, n: nat, ghost k: nat) returns (ap: nat)
      requires Valid() && freep != 0 && 0 < k < |fl| && Has(fl, k - 1, prevp) && Has(fl, k, p) && 0 < n < fl[k].size
      modifies this
      ensures Valid() && freep == prevp && units == old(units) && granted == old(granted)
      ensures ap > 0 && live == old(live) + {Blk(ap - 1, n)} && Blk(ap - 1, n) !in old(live)
      ensures Undisturbed(old(mem), mem, old(live), {})
    {
      assert EntryMem(mem, fl, k);
      var at := p + (mem[p].size - n);
      var ptr := if at in mem then mem[at].ptr else 0;
      CutKeeps(units, mem, fl, live, k, n, ptr);
      TailUndisturbed(mem, fl, live, k, at, Header(mem[p].ptr, mem[p].size - n), Header(ptr, n));
      mem := mem[p := Header(mem[p].ptr, mem[p].size - n)];
      mem := mem[at := Header(ptr, n)];
      live, fl := live + {Tail(fl, k, n)}, Cut(fl, k, n);
      freep := prevp;
      assert Has(fl, k - 1, freep);
      return at + 1;
    }

    /** One trip of malloc's loop around the list, from the entry after freep to freep:
        the first block that fits, and its predecessor. */
    method Search(nunits: nat) returns (found: bool, prevp: nat, p: nat, ghost k: nat)
      requires Valid() && freep != 0 && nunits > 0
      ensures found <==> Fits(fl, nunits)
      ensures found ==> 0 < k < |fl| && Has(fl, k - 1, prevp) && Has(fl, k, p) && fl[k].size >= nunits
    {
      ghost var n := |fl|;
      ghost var f: nat :| Has(fl, f, freep);
      ghost var c := 0;  // entries seen
      prevp, k := freep, Next(f, n);
      assert EntryMem(mem, fl, f);
      p := mem[prevp].ptr;
      found := true;
      while mem[p].size < nunits
        invariant Seen(fl, f, c, k, nunits) && Has(fl, k, p) && EntryMem(mem, fl, k)
        invariant k > 0 ==> Has(fl, k - 1, prevp)
        decreases n - c
      {
        if p == freep {
          AllSmall(fl, f, c, k, nunits);
          return false, prevp, p, k;
        }
        prevp, p := p, mem[p].ptr;
        c, k := c + 1, Next(k, n);
      }
      assert fl[k].size >= nunits;
    }

    /** malloc, when nothing fits: more memory, and the rest of the search. */
    method SearchMore(nunits: nat, start: Option<nat>) returns (found: bool, prevp: nat, p: nat, ghost k: nat)
      requires Valid() && freep != 0 && nunits > 0 && (start.Some? ==> brk <= start.value)
      modifies this
      ensures Valid() && freep != 0 && live == old(live) && found == start.Some?
      ensures Undisturbed(old(mem), mem, live, {})
      ensures !found ==> fl == old(fl) && units == old(units) && granted == old(granted)
      ensures found ==> 0 < k < |fl| && Has(fl, k - 1, prevp) && Has(fl, k, p) && fl[k].size >= nunits
      ensures found ==> units == old(units) + Units(Region(start.value, nunits))
      ensures found && old(Backed()) ==> (Backed() <==> 16 * Region(start.value, nunits).size < 0x8000_0000)
    {
      ghost var units0, granted0, brk0 := units, granted, brk;
      prevp, k := 0, 0;
      p := Morecore(nunits, start);
      if p == 0 { return false, prevp, p, k; }
      if units0 <= granted0 { StaysBacked(units0, granted0, brk0, Region(start.value, nunits)); }
      found, prevp, p, k := Search(nunits);
    }

    /** malloc: a block of at least nbytes bytes, or 0. start is what sbrk would
        return if it were asked. After morecore the loop goes on from freep. */
    method Malloc(nbytes: nat, start: Option<nat>) returns (ap: nat)
      requires Valid() && nbytes < 0x1_0000_0000 && (start.Some? ==> brk <= start.value)
      modifies this
      ensures Valid() && freep != 0
      ensures ap == 0 <==> !Fits(old(fl), NUnits(nbytes)) && start == None
      ensures Undisturbed(old(mem), mem, old(live), {})
      ensures ap == 0 ==> live == old(live) && units == old(units) && fl == old(fl) && granted == old(granted)
      ensures ap != 0 ==> live == old(live) + {Blk(ap - 1, NUnits(nbytes))} && Blk(ap - 1, NUnits(nbytes)) !in old(live)
      ensures ap != 0 ==> units == if Fits(old(fl), NUnits(nbytes)) then old(units)
                                   else old(units) + Units(Region(start.value, NUnits(nbytes)))
      // behind its header the block has room for nbytes, and no whole unit more
      ensures ap != 0 ==> exists b :: b in live && b !in old(live) && b.addr == ap - 1 && HasRoom(b, nbytes)
      // the heap holds only memory it has been given, unless the size overflows the int that sbrk takes
      ensures old(Backed()) ==> (Backed() <==> ap == 0 || Fits(old(fl), NUnits(nbytes)) || InInt(nbytes))
    {
      var nunits := NUnits(nbytes);
      if freep == 0 {
        freep := base;
        mem := mem[base := Header(base, 0)];
        assert EntryMem(mem, fl, 0) && Has(fl, 0, freep);
      }
      ghost var mem0 := mem;
      var found, prevp, p;
      ghost var k;
      found, prevp, p, k := Search(nunits);
      if !found {
        found, prevp, p, k := SearchMore(nunits, start);
        if !found { return 0; }
      }
      ghost var mem1 := mem;
      ap := Take(prevp, p, nunits, k);
      UndisturbedTrans(mem0, mem1, mem, old(live));
      assert HasRoom(Blk(ap - 1, nunits), nbytes);
    }

    /** The program stores into a block it has been given, behind the header. */
    method Store(b: Blk, u: nat, x: Header)
      requires Valid() && b in live && b.addr < u < b.addr + b.size
      modifies this`mem
      ensures Valid() && mem == old(mem)[u := x]
    {
      StoreKeeps(mem, fl, live, b, u, x);
      mem := mem[u := x];
    }
  }

  // ----- what is written -----

  /** Neither a free block nor its header lies in a block in use. */
  lemma FreeUnused(fl: seq<Blk>, live: set<Blk>, k: nat)
    requires Ordered(fl) && LiveOk(fl, live) && k < |fl|
    ensures !InUse(live, fl[k].addr) && forall u: nat :: Within(fl[k], u) ==> !InUse(live, u)
  {
    if k > 0 { assert Before(fl[0], fl[k]); }
    forall b | b in live
      ensures !Within(b, fl[k].addr) && Apart(fl[k], b)
    {
      assert LiveBlk(fl, b);
    }
  }

  lemma ListedUndisturbed(mem: map<nat, Header>, fl: seq<Blk>, live: set<Blk>, k: nat, x: Header)
    requires Ordered(fl) && LiveOk(fl, live) && k < |fl|
    ensures Undisturbed(mem, mem[fl[k].addr := x], live, {})
  {
    FreeUnused(fl, live, k);
  }

  lemma TailUndisturbed(mem: map<nat, Header>, fl: seq<Blk>, live: set<Blk>, k: nat, at: nat, x: Header, y: Header)
    requires Ordered(fl) && LiveOk(fl, live) && k < |fl| && Within(fl[k], at)
    ensures Undisturbed(mem, mem[fl[k].addr := x][at := y], live, {})
  {
    FreeUnused(fl, live, k);
  }

  lemma FreedUndisturbed(mem: map<nat, Header>, fl: seq<Blk>, live: set<Blk>, k: nat, p: nat, bp: nat)
    requires Ordered(fl) && LiveOk(fl, live) && k < |fl| && p == fl[k].addr
    requires p in mem && bp in mem && mem[p].ptr in mem
    ensures Undisturbed(mem, Freed(mem, p, bp), live, {bp})
  {
    FreeUnused(fl, live, k);
  }

  lemma RegionUnused(units: iset<nat>, brk: nat, fl: seq<Blk>, live: set<Blk>, b: Blk)
    requires UnitsOk(units, fl, live) && (forall u :: u in units ==> u < brk) && brk <= b.addr
    ensures !InUse(live, b.addr)
  {
    assert b.addr !in units;
  }

  lemma RegionUndisturbed(mem: map<nat, Header>, mem1: map<nat, Header>, mem2: map<nat, Header>, live: set<Blk>, b: Blk)
    requires mem1 == mem[b.addr := Header(0, b.size)] && Undisturbed(mem1, mem2, live + {b}, {b.addr})
    requires !InUse(live, b.addr)
    ensures Undisturbed(mem, mem2, live, {})
  {
    forall u: nat | InUse(live, u) ensures SameAt(mem, mem2, u) {
      MoreInUse(live, b, u);
      assert SameAt(mem1, mem2, u);
    }
  }

  lemma UndisturbedTrans(mem: map<nat, Header>, mem1: map<nat, Header>, mem2: map<nat, Header>, live: set<Blk>)
    requires Undisturbed(mem, mem1, live, {}) && Undisturbed(mem1, mem2, live, {})
    ensures Undisturbed(mem, mem2, live, {})
  {
    forall u: nat | InUse(live, u) ensures SameAt(mem, mem2, u) {
      assert SameAt(mem, mem1, u) && SameAt(mem1, mem2, u);
    }
  }

  lemma StoreKeeps(mem: map<nat, Header>, fl: seq<Blk>, live: set<Blk>, b: Blk, u: nat, x: Header)
    requires Ordered(fl) && LiveOk(fl, live) && LiveMem(mem, live) && b in live && b.addr < u < b.addr + b.size
    ensures LiveMem(mem[u := x], live) && (ListMem(mem, fl) ==> ListMem(mem[u := x], fl))
  {
    assert Within(b, u);
    var m := mem[u := x];
    forall a | a in live
      ensures a.addr in m && m[a.addr].size == a.size
    {
      assert a != b ==> Apart(a, b);
      assert LiveBlk(fl, a);
    }
    if ListMem(mem, fl) {
      forall k: nat | k < |fl| ensures EntryMem(m, fl, k) {
        assert EntryMem(mem, fl, k);
        FreeUnused(fl, live, k);
      }
    }
  }

  /** What morecore asks for fits in the int that sbrk takes. */
  predicate InInt(nbytes: nat) { 16 * Region(0, NUnits(nbytes)).size < 0x8000_0000 }

  /** nu * sizeof(Header), converted to the int parameter of sbrk. */
  function SbrkArg(nu: nat): (n: int) {
    var n := 16 * nu % 0x1_0000_0000;
    if n < 0x8000_0000 then n else n - 0x1_0000_0000
  }

  lemma SbrkArgBound(nu: nat)
    ensures SbrkArg(nu) % 16 == 0 && SbrkArg(nu) <= 16 * nu
    ensures SbrkArg(nu) == 16 * nu <==> 16 * nu < 0x8000_0000
  {
    var q, m := nu / 0x1000_0000, nu % 0x1000_0000;
    assert nu == 0x1000_0000 * q + m;
    Wraps(q, 16 * m);
    assert 16 * nu == 0x1_0000_0000 * q + 16 * m;
  }

  lemma Wraps(q: nat, m: nat)
    requires m < 0x1_0000_0000
    ensures (0x1_0000_0000 * q + m) % 0x1_0000_0000 == m
  {}

  /** The memory a program has after sbrk(n), in units, when the break was start. A
      negative n gives memory back, unless there is less than that. */
  ghost function AfterSbrk(granted: iset<nat>, start: nat, n: int): (g: iset<nat>) {
    if n > 0 then granted + Units(Blk(start, n / 16))
    else if start + n / 16 >= 0 then iset u | u in granted && u < start + n / 16
    else granted
  }

  lemma StaysBacked(units: iset<nat>, granted: iset<nat>, brk: nat, b: Blk)
    requires units <= granted && (forall u :: u in granted ==> u < brk) && brk <= b.addr && b.size > 0
    ensures units + Units(b) <= AfterSbrk(granted, b.addr, SbrkArg(b.size)) <==> 16 * b.size < 0x8000_0000
  {
    SbrkArgBound(b.size);
    var g := AfterSbrk(granted, b.addr, SbrkArg(b.size));
    var last := b.addr + b.size - 1;
    assert last in Units(b);
    if 16 * b.size < 0x8000_0000 {
      assert Blk(b.addr, SbrkArg(b.size) / 16) == b;
    } else {
      assert last !in g;
    }
  }

  /** A request of half the address range of an int: the block is handed out, and the memory
      is not there. */
  method HugeRequest(base: nat, brk: nat) returns (h: Heap, ap: nat)
    requires 0 < base < brk
    ensures fresh(h) && h.Valid() && ap != 0 && Blk(ap - 1, NUnits(0x8000_0000)) in h.live && !h.Backed()
  {
    h := new Heap(base, brk);
    ap := h.Malloc(0x8000_0000, Some(brk));
  }

  function NUnits(nbytes: nat): (n: nat) { (nbytes + 15) / 16 + 1 }

  /** What morecore asks sbrk for. */
  function Region(start: nat, nunits: nat): (b: Blk) { Blk(start, if nunits < MIN_CORE then MIN_CORE else nunits) }

  /** k is the entry reached after c entries from the one after f, all of them too small. */
  ghost predicate Seen(fl: seq<Blk>, f: nat, c: nat, k: nat, n: nat) {
    && f < |fl| && c < |fl| && k < |fl|
    && k == (if f + 1 + c < |fl| then f + 1 + c else f + 1 + c - |fl|)
    && forall j: nat :: j < |fl| && (if k > f then f < j < k else j < k || f < j) ==> fl[j].size < n
  }

  /** Once the search is back at freep, no block fits. */
  lemma AllSmall(fl: seq<Blk>, f: nat, c: nat, k: nat, n: nat)
    requires Ordered(fl) && Seen(fl, f, c, k, n) && fl[k].addr == fl[f].addr && fl[k].size < n
    ensures !Fits(fl, n)
  {
    assert k < f ==> Before(fl[k], fl[f]);
    assert f < k ==> Before(fl[f], fl[k]);
  }

  ghost function Units(b: Blk): (us: iset<nat>) { iset u: nat | Within(b, u) }

  /** Some free block has at least n units. */
  ghost predicate Fits(fl: seq<Blk>, n: nat) { exists k: nat :: k < |fl| && fl[k].size >= n }

  /** A new region lies beyond every block there is. */
  lemma RegionApart(units: iset<nat>, brk: nat, fl: seq<Blk>, live: set<Blk>, b: Blk)
    requires Ordered(fl) && LiveOk(fl, live) && UnitsOk(units, fl, live) && (forall u :: u in units ==> u < brk)
    requires fl[0].addr < brk <= b.addr
    ensures forall k: nat :: k < |fl| ==> fl[k].addr < b.addr && Apart(fl[k], b)
    ensures forall a :: a in live ==> a.addr < b.addr && Apart(a, b) && Apart(b, a)
  {
    forall k: nat | k < |fl| ensures fl[k].addr < b.addr && Apart(fl[k], b) {
      if k > 0 {
        var u := fl[k].addr + fl[k].size - 1;
        assert Within(fl[k], u);
        assert u in units;
      }
    }
    forall a | a in live ensures a.addr < b.addr && Apart(a, b) && Apart(b, a) {
      assert LiveBlk(fl, a);
      var u := a.addr + a.size - 1;
      assert Within(a, u);
      assert u in units;
    }
  }

  lemma RegionOk(units: iset<nat>, brk: nat, mem: map<nat, Header>, fl: seq<Blk>, live: set<Blk>, b: Blk)
    requires Ordered(fl) && LiveOk(fl, live) && UnitsOk(units, fl, live) && (forall u :: u in units ==> u < brk)
    requires ListMem(mem, fl) && LiveMem(mem, live) && fl[0].addr < brk <= b.addr && b.size > 0
    ensures LiveOk(fl, live + {b}) && UnitsOk(units + Units(b), fl, live + {b}) && b !in live
    ensures ListMem(mem[b.addr := Header(0, b.size)], fl) && LiveMem(mem[b.addr := Header(0, b.size)], live + {b})
  {
    RegionApart(units, brk, fl, live, b);
    forall a | a in live + {b} ensures LiveBlk(fl, a) {}
    forall u: nat ensures u in units + Units(b) <==> IsFree(fl, u) || InUse(live + {b}, u) {
      if InUse(live, u) {
        var a :| a in live && Within(a, u);
        assert a in live + {b};
      }
      if Within(b, u) { assert b in live + {b}; }
    }
    var m := mem[b.addr := Header(0, b.size)];
    forall k: nat | k < |fl| ensures EntryMem(m, fl, k) { assert EntryMem(mem, fl, k); }
  }

  /** The header that free leaves at bp, whose predecessor in the list is p. */
  function JoinedHeader(mem: map<nat, Header>, p: nat, bp: nat): (h: Header)
    requires p in mem && bp in mem && mem[p].ptr in mem
  {
    var q := mem[p].ptr;
    if bp + mem[bp].size == q then Header(mem[q].ptr, mem[bp].size + mem[q].size) else Header(q, mem[bp].size)
  }

  /** The headers after free(bp). */
  function Freed(mem: map<nat, Header>, p: nat, bp: nat): (r: map<nat, Header>)
    requires p in mem && bp in mem && mem[p].ptr in mem
  {
    var h := JoinedHeader(mem, p, bp);
    var m := mem[bp := h];
    if p + mem[p].size == bp then m[p := Header(h.ptr, mem[p].size + h.size)] else m[p := Header(bp, mem[p].size)]
  }

  lemma FreedAt(mem: map<nat, Header>, fl: seq<Blk>, k: nat, b: Blk)
    requires Ordered(fl) && ListMem(mem, fl) && Place(fl, k, b.addr) && LiveBlk(fl, b)
    requires b.addr in mem && mem[b.addr].size == b.size
    ensures fl[k].addr in mem && mem[fl[k].addr].ptr in mem
    ensures var c, h := JoinRight(fl, k, b), JoinedHeader(mem, fl[k].addr, b.addr);
      && h.size == c.size
      && h.ptr == if AfterRight(fl, k, b) == [] then fl[0].addr else AfterRight(fl, k, b)[0].addr
  {
    assert EntryMem(mem, fl, k) && EntryMem(mem, fl, Next(k, |fl|)) && EntryMem(mem, fl, 0);
  }

  lemma FreedMem(mem: map<nat, Header>, fl: seq<Blk>, k: nat, b: Blk)
    requires Ordered(fl) && ListMem(mem, fl) && Place(fl, k, b.addr) && LiveBlk(fl, b)
    requires b.addr in mem && mem[b.addr].size == b.size
    ensures fl[k].addr in mem && mem[fl[k].addr].ptr in mem && ListMem(Freed(mem, fl[k].addr, b.addr), Insert(fl, k, b))
  {
    FreedAt(mem, fl, k, b);
    var m, r, h := Freed(mem, fl[k].addr, b.addr), Insert(fl, k, b), Home(fl, k, b);
    InsertOrdered(fl, k, b);
    HomeHolds(fl, k, b);
    forall j: nat | j < |r| ensures EntryMem(m, r, j) {
      assert EntryMem(mem, fl, k);
      if j != h {
        InsertFrom(fl, k, b, j);
        FreedOther(mem, fl, k, b, j);
      }
    }
  }

  lemma InsertNext(fl: seq<Blk>, k: nat, b: Blk, j: nat)
    requires k < |fl| && j < |Insert(fl, k, b)| && j != Home(fl, k, b)
    ensures var r, h, d := Insert(fl, k, b), Home(fl, k, b), |fl| - |Insert(fl, k, b)|;
      && Next(j, |r|) < |r|
      && (j < h && j < k ==> r[Next(j, |r|)].addr == fl[j + 1].addr)
      && (j < h && j == k ==> r[Next(j, |r|)].addr == b.addr)
      && (j > h ==> 0 <= j + d < |fl| && r[Next(j, |r|)].addr == fl[Next(j + d, |fl|)].addr)
  {
    var r, h, d := Insert(fl, k, b), Home(fl, k, b), |fl| - |Insert(fl, k, b)|;
    InsertFrom(fl, k, b, j);
    var l := Next(j, |r|);
    if l != h { InsertFrom(fl, k, b, l); }
  }

  lemma FreedOther(mem: map<nat, Header>, fl: seq<Blk>, k: nat, b: Blk, j: nat)
    requires Ordered(fl) && ListMem(mem, fl) && Place(fl, k, b.addr) && LiveBlk(fl, b)
    requires b.addr in mem && mem[b.addr].size == b.size && fl[k].addr in mem && mem[fl[k].addr].ptr in mem
    requires j < |Insert(fl, k, b)| && j != Home(fl, k, b)
    ensures EntryMem(Freed(mem, fl[k].addr, b.addr), Insert(fl, k, b), j)
  {
    InsertFrom(fl, k, b, j);
    InsertNext(fl, k, b, j);
    if j < Home(fl, k, b) {
      assert EntryMem(mem, fl, j) && EntryMem(mem, fl, k);
      if j < k {
        assert Before(fl[j], fl[k]);
        FreedElsewhere(mem, fl[k].addr, b.addr, fl[j].addr);
      }
    } else {
      var i := j + |fl| - |Insert(fl, k, b)|;
      assert EntryMem(mem, fl, i) && Before(fl[k], fl[i]);
      if k + 1 < i { assert Before(fl[k + 1], fl[i]); }
      FreedElsewhere(mem, fl[k].addr, b.addr, fl[i].addr);
    }
  }

  lemma FreedElsewhere(mem: map<nat, Header>, p: nat, bp: nat, a: nat)
    requires p in mem && bp in mem && mem[p].ptr in mem && a in mem && a != p && a != bp
    ensures a in Freed(mem, p, bp) && Freed(mem, p, bp)[a] == mem[a]
  {}

  /** A block in use is not on the list. */
  lemma NotListed(fl: seq<Blk>, b: Blk)
    requires Ordered(fl) && LiveBlk(fl, b)
    ensures forall k: nat :: k < |fl| ==> fl[k].addr != b.addr
  {
    forall k: nat | k < |fl| ensures fl[k].addr != b.addr { assert Apart(fl[k], b); }
  }

  lemma LiveMemKept(mem: map<nat, Header>, mem': map<nat, Header>, fl: seq<Blk>, live: set<Blk>, k: nat, b: Blk)
    requires LiveMem(mem, live) && LiveOk(fl, live) && Ordered(fl) && k < |fl| && b in live
    requires forall a :: a in mem && a != b.addr && a != fl[k].addr ==> a in mem' && mem'[a] == mem[a]
    ensures LiveMem(mem', live - {b})
  {
    forall a | a in live - {b} ensures a.addr in mem' && mem'[a.addr].size == a.size {
      assert LiveBlk(fl, a) && Apart(a, b);
      NotListed(fl, a);
    }
  }

  lemma FreeKeeps(units: iset<nat>, fl: seq<Blk>, k: nat, b: Blk, live: set<Blk>)
    requires Ordered(fl) && LiveOk(fl, live) && b in live && Place(fl, k, b.addr) && UnitsOk(units, fl, live)
    ensures Ordered(Insert(fl, k, b)) && LiveOk(Insert(fl, k, b), live - {b}) && Insert(fl, k, b)[0] == fl[0]
    ensures k < |Insert(fl, k, b)| && Insert(fl, k, b)[k].addr == fl[k].addr
    ensures UnitsOk(units, Insert(fl, k, b), live - {b})
  {
    assert LiveBlk(fl, b);
    InsertOrdered(fl, k, b);
    InsertLive(fl, k, b, live);
    HomeHolds(fl, k, b);
    if k != Home(fl, k, b) { InsertFrom(fl, k, b, k); }
    forall u: nat ensures u in units <==> IsFree(Insert(fl, k, b), u) || InUse(live - {b}, u) {
      InsertUnits(fl, k, b, u);
      if InUse(live, u) && !Within(b, u) {
        var a :| a in live && Within(a, u);
        assert a in live - {b};
      }
    }
  }

  /** Taking all of free block k. */
  lemma ExactKeeps(units: iset<nat>, mem: map<nat, Header>, fl: seq<Blk>, live: set<Blk>, k: nat)
    requires Ordered(fl) && LiveOk(fl, live) && UnitsOk(units, fl, live) && ListMem(mem, fl) && LiveMem(mem, live)
    requires 0 < k < |fl|
    ensures var r, p, q := Remove(fl, k), fl[k - 1].addr, fl[k].addr;
      && p in mem && q in mem && Ordered(r) && r[0] == fl[0] && LiveOk(r, live + {fl[k]}) && fl[k] !in live
      && UnitsOk(units, r, live + {fl[k]})
      && var m := mem[p := Header(mem[q].ptr, mem[p].size)]; ListMem(m, r) && LiveMem(m, live + {fl[k]})
  {
    var r := Remove(fl, k);
    assert EntryMem(mem, fl, k) && EntryMem(mem, fl, k - 1);
    RemoveOk(fl, k, live);
    forall u: nat ensures u in units <==> IsFree(r, u) || InUse(live + {fl[k]}, u) {
      RemoveUnits(fl, k, u);
      MoreInUse(live, fl[k], u);
    }
    var m := mem[fl[k - 1].addr := Header(mem[fl[k].addr].ptr, mem[fl[k - 1].addr].size)];
    forall j: nat | j < |r| ensures EntryMem(m, r, j) {
      var i := if j < k then j else j + 1;
      assert r[j] == fl[i] && EntryMem(mem, fl, i);
      if j < k - 1 { assert Before(fl[j], fl[k - 1]); }
      if j > k - 1 { assert Before(fl[k - 1], fl[i]); }
    }
    forall b | b in live + {fl[k]} ensures b.addr in m && m[b.addr].size == b.size {
      if b in live { NotListed(fl, b); } else { assert Before(fl[k - 1], fl[k]); }
    }
  }

  lemma MoreInUse(live: set<Blk>, b: Blk, u: nat)
    ensures InUse(live + {b}, u) <==> InUse(live, u) || Within(b, u)
  {
    if InUse(live, u) {
      var a :| a in live && Within(a, u);
      assert a in live + {b};
    }
    assert b in live + {b};
  }

  /** Taking the last n units of free block k; ptr is what the new header's pointer
      field happens to hold. */
  lemma CutKeeps(units: iset<nat>, mem: map<nat, Header>, fl: seq<Blk>, live: set<Blk>, k: nat, n: nat, ptr: nat)
    requires Ordered(fl) && LiveOk(fl, live) && UnitsOk(units, fl, live) && ListMem(mem, fl) && LiveMem(mem, live)
    requires 0 < k < |fl| && 0 < n < fl[k].size
    ensures var r, t, p := Cut(fl, k, n), Tail(fl, k, n), fl[k].addr;
      && p in mem && Ordered(r) && r[0] == fl[0] && LiveOk(r, live + {t}) && t !in live && UnitsOk(units, r, live + {t})
      && var m := mem[p := Header(mem[p].ptr, fl[k].size - n)][t.addr := Header(ptr, n)];
         ListMem(m, r) && LiveMem(m, live + {t})
  {
    var r, t, p := Cut(fl, k, n), Tail(fl, k, n), fl[k].addr;
    assert EntryMem(mem, fl, k);
    CutOk(fl, k, n, live);
    forall u: nat ensures u in units <==> IsFree(r, u) || InUse(live + {t}, u) {
      CutUnits(fl, k, n, u);
      MoreInUse(live, t, u);
    }
    var m := mem[p := Header(mem[p].ptr, fl[k].size - n)][t.addr := Header(ptr, n)];
    forall j: nat | j < |r| ensures EntryMem(m, r, j) {
      assert EntryMem(mem, fl, j);
      if j < k { assert Before(fl[j], fl[k]); }
      if j > k { assert Before(fl[k], fl[j]); }
    }
    forall b | b in live + {t} ensures b.addr in m && m[b.addr].size == b.size {
      if b in live {
        NotListed(fl, b);
        assert LiveBlk(fl, b) && Apart(fl[k], b);
      }
    }
  }

  /** There is always a place: after the last entry below bp. */
  lemma {:induction false} PlaceOf(fl: seq<Blk>, bp: nat) returns (t: nat)
    requires Ordered(fl) && fl[0].addr < bp && forall k: nat :: k < |fl| ==> fl[k].addr != bp
    ensures Place(fl, t, bp)
  {
    t := 0;
    while t + 1 < |fl| && fl[t + 1].addr < bp
      invariant t < |fl| && fl[t].addr < bp
    {
      t := t + 1;
    }
  }

  /** How the loop in free tells the place. */
  lemma OnlyPlace(fl: seq<Blk>, t: nat, k: nat, bp: nat)
    requires Ordered(fl) && Place(fl, t, bp) && k < |fl|
    ensures var p, q := fl[k].addr, fl[Next(k, |fl|)].addr;
      (bp > p && bp < q) || (p >= q && (bp > p || bp < q)) <==> k == t
  {
    var q := Next(k, |fl|);
    if k < t { assert Before(fl[k], fl[t]); assert q <= t; assert q < t ==> Before(fl[q], fl[t]); }
    if t < k { assert Before(fl[t], fl[k]); assert t + 1 < k ==> Before(fl[t + 1], fl[k]); }
    if 0 < k { assert Before(fl[0], fl[k]); }
    if k + 1 < |fl| { assert Before(fl[k], fl[k + 1]); }
    if 0 < t { assert Before(fl[0], fl[t]); }
  }
}
