/** The free list of the K&R allocator (user/umalloc.c), as a sequence. Addresses
    and sizes count units of sizeof(Header). */
module FreeList {

  datatype Blk = Blk(addr: nat, size: nat)

  /** Blocks in address order, each ending before the next begins, with at least one
      unit between them; the first is the empty block base. */
  ghost predicate Ordered(fl: seq<Blk>) {
    && |fl| > 0 && fl[0].size == 0
    && (forall j: nat, k: nat :: j < k < |fl| ==> Before(fl[j], fl[k]))
    && (forall k: nat :: 0 < k < |fl| ==> fl[k].size > 0)
  }

  predicate Before(a: Blk, b: Blk) { a.addr + a.size < b.addr }

  predicate Apart(a: Blk, b: Blk) { a.addr + a.size <= b.addr || b.addr + b.size <= a.addr }

  /** Blocks in use are apart from one another and from the free blocks, above base. */
  ghost predicate LiveOk(fl: seq<Blk>, live: set<Blk>) {
    && (forall b :: b in live ==> LiveBlk(fl, b))
    && (forall a, b :: a in live && b in live && a != b ==> Apart(a, b))
  }

  ghost predicate LiveBlk(fl: seq<Blk>, b: Blk) {
    && |fl| > 0 && b.size > 0 && fl[0].addr < b.addr
    && forall k: nat :: k < |fl| ==> Apart(fl[k], b)
  }

  predicate Within(b: Blk, u: int) { b.addr <= u < b.addr + b.size }

  /** Unit u is free, or in use. */
  ghost predicate IsFree(fl: seq<Blk>, u: nat) { exists k: nat :: k < |fl| && Within(fl[k], u) }

  ghost predicate InUse(live: set<Blk>, u: nat) { exists b :: b in live && Within(b, u) }

  /** The block after which a block at addr belongs. */
  ghost predicate Place(fl: seq<Blk>, k: nat, addr: nat) {
    k < |fl| && fl[k].addr < addr && (k + 1 < |fl| ==> addr < fl[k + 1].addr)
  }

  // ----- free -----

  /** b joined with the free block right after it, if they touch. */
  function JoinRight(fl: seq<Blk>, k: nat, b: Blk): (r: Blk)
    requires k < |fl|
  {
    if k + 1 < |fl| && b.addr + b.size == fl[k + 1].addr then Blk(b.addr, b.size + fl[k + 1].size) else b
  }

  function AfterRight(fl: seq<Blk>, k: nat, b: Blk): (r: seq<Blk>)
    requires k < |fl|
  {
    if k + 1 < |fl| && b.addr + b.size == fl[k + 1].addr then fl[k + 2..] else fl[k + 1..]
  }

  /** The list with b put in after entry k, joined with the neighbours it touches. */
  function Insert(fl: seq<Blk>, k: nat, b: Blk): (r: seq<Blk>)
    requires k < |fl|
  {
    var c := JoinRight(fl, k, b);
    if fl[k].addr + fl[k].size == b.addr then fl[..k] + [Blk(fl[k].addr, fl[k].size + c.size)] + AfterRight(fl, k, b)
    else fl[..k + 1] + [c] + AfterRight(fl, k, b)
  }

  /** The entry of Insert(fl, k, b) that holds b. */
  function Home(fl: seq<Blk>, k: nat, b: Blk): (h: nat)
    requires k < |fl|
  {
    if fl[k].addr + fl[k].size == b.addr then k else k + 1
  }

  lemma HomeHolds(fl: seq<Blk>, k: nat, b: Blk)
    requires Ordered(fl) && Place(fl, k, b.addr) && LiveBlk(fl, b)
    ensures var r, h := Insert(fl, k, b), Home(fl, k, b);
      && h < |r| && r[h].addr <= b.addr && b.addr + b.size <= r[h].addr + r[h].size
      && 0 < h && r[..h] == fl[..h]
  {
    assert Apart(fl[k], b);
  }

  /** Where each other entry of the new list comes from. */
  lemma InsertFrom(fl: seq<Blk>, k: nat, b: Blk, j: nat)
    requires k < |fl| && j < |Insert(fl, k, b)| && j != Home(fl, k, b)
    ensures var r, h := Insert(fl, k, b), Home(fl, k, b);
      if j < h then j < |fl| && r[j] == fl[j] && j <= k
      else var d := |fl| - |r|; k < j + d < |fl| && r[j] == fl[j + d] && (JoinRight(fl, k, b) != b ==> j + d > k + 1)
  {}

  lemma InsertOrdered(fl: seq<Blk>, k: nat, b: Blk)
    requires Ordered(fl) && Place(fl, k, b.addr) && LiveBlk(fl, b)
    ensures Ordered(Insert(fl, k, b)) && Insert(fl, k, b)[0] == fl[0]
  {
    var r, h := Insert(fl, k, b), Home(fl, k, b);
    HomeHolds(fl, k, b);
    assert Apart(fl[k], b);
    forall j: nat, l: nat | j < l < |r| ensures Before(r[j], r[l]) {
      if j != h { InsertFrom(fl, k, b, j); }
      if l != h { InsertFrom(fl, k, b, l); }
      if k + 1 < |fl| { assert Apart(fl[k + 1], b); }
    }
    forall j: nat | 0 < j < |r| ensures r[j].size > 0 {
      if j != h { InsertFrom(fl, k, b, j); }
    }
  }

  lemma InsertLive(fl: seq<Blk>, k: nat, b: Blk, live: set<Blk>)
    requires Ordered(fl) && Place(fl, k, b.addr) && LiveOk(fl, live) && b in live
    ensures LiveOk(Insert(fl, k, b), live - {b})
  {
    var r, h := Insert(fl, k, b), Home(fl, k, b);
    InsertOrdered(fl, k, b);
    HomeHolds(fl, k, b);
    forall a | a in live - {b} ensures LiveBlk(r, a) {
      assert LiveBlk(fl, a) && Apart(a, b) && Apart(fl[k], a) && Apart(fl[k], b);
      if k + 1 < |fl| { assert Apart(fl[k + 1], a) && Apart(fl[k + 1], b); }
      forall j: nat | j < |r| ensures Apart(r[j], a) {
        if j != h { InsertFrom(fl, k, b, j); }
      }
    }
  }

  /** free makes exactly the units of b free. */
  lemma InsertUnits(fl: seq<Blk>, k: nat, b: Blk, u: nat)
    requires Ordered(fl) && Place(fl, k, b.addr) && LiveBlk(fl, b)
    ensures IsFree(Insert(fl, k, b), u) <==> IsFree(fl, u) || Within(b, u)
  {
    var r, h := Insert(fl, k, b), Home(fl, k, b);
    HomeHolds(fl, k, b);
    assert Apart(fl[k], b);
    if IsFree(r, u) {
      var j: nat :| j < |r| && Within(r[j], u);
      InsertSources(fl, k, b, j, u);
    }
    if Within(b, u) { assert Within(r[h], u); }
    if IsFree(fl, u) {
      var j: nat :| j < |fl| && Within(fl[j], u);
      InsertKeeps(fl, k, b, j, u);
    }
  }

  lemma InsertSources(fl: seq<Blk>, k: nat, b: Blk, j: nat, u: nat)
    requires Ordered(fl) && Place(fl, k, b.addr) && LiveBlk(fl, b)
    requires j < |Insert(fl, k, b)| && Within(Insert(fl, k, b)[j], u)
    ensures IsFree(fl, u) || Within(b, u)
  {
    if j == Home(fl, k, b) {
      assert Within(b, u) || Within(fl[k], u) || Within(fl[k + 1], u);
    } else {
      InsertFrom(fl, k, b, j);
    }
  }

  /** The new list from its home entry on. */
  lemma InsertAt(fl: seq<Blk>, k: nat, b: Blk)
    requires k < |fl|
    ensures var r, h, c := Insert(fl, k, b), Home(fl, k, b), JoinRight(fl, k, b);
      && h < |r| && r[h] == (if h == k then Blk(fl[k].addr, fl[k].size + c.size) else c)
      && r[h + 1..] == AfterRight(fl, k, b)
  {}

  lemma AfterRightAt(fl: seq<Blk>, k: nat, b: Blk, j: nat)
    requires k < j < |fl| && !(j == k + 1 && JoinRight(fl, k, b) != b && b.addr + b.size == fl[k + 1].addr)
    requires b.addr + b.size == fl[k + 1].addr ==> fl[k + 1].size > 0
    ensures fl[j] in AfterRight(fl, k, b)
  {
    var r := AfterRight(fl, k, b);
    assert r[j - (|fl| - |r|)] == fl[j];
  }

  /** Where each entry of the old list goes. */
  lemma InsertKeeps(fl: seq<Blk>, k: nat, b: Blk, j: nat, u: nat)
    requires Ordered(fl) && Place(fl, k, b.addr) && LiveBlk(fl, b) && j < |fl| && Within(fl[j], u)
    ensures IsFree(Insert(fl, k, b), u)
  {
    var r, h := Insert(fl, k, b), Home(fl, k, b);
    HomeHolds(fl, k, b);
    InsertAt(fl, k, b);
    if j < h {
      assert r[..h][j] == fl[..h][j];
    } else if j <= k || (j == k + 1 && b.addr + b.size == fl[k + 1].addr) {
      assert Within(r[h], u);
    } else {
      AfterRightAt(fl, k, b, j);
      InTail(r, h + 1, fl[j], u);
    }
  }

  lemma InTail(r: seq<Blk>, h: nat, x: Blk, u: nat)
    requires h <= |r| && x in r[h..] && Within(x, u)
    ensures IsFree(r, u)
  {
    var i: nat :| i < |r[h..]| && r[h..][i] == x;
    assert r[h + i] == x;
  }

  // ----- malloc -----

  function Remove(fl: seq<Blk>, k: nat): (r: seq<Blk>)
    requires k < |fl|
  {
    fl[..k] + fl[k + 1..]
  }

  /** All of free block k is taken. */
  lemma RemoveOk(fl: seq<Blk>, k: nat, live: set<Blk>)
    requires Ordered(fl) && LiveOk(fl, live) && 0 < k < |fl|
    ensures Ordered(Remove(fl, k)) && LiveOk(Remove(fl, k), live + {fl[k]}) && Remove(fl, k)[0] == fl[0]
    ensures fl[k] !in live
  {
    var r := Remove(fl, k);
    assert forall j: nat :: j < |r| ==> r[j] == if j < k then fl[j] else fl[j + 1];
    assert fl[k] in live ==> LiveBlk(fl, fl[k]) && Apart(fl[k], fl[k]);
    assert Before(fl[0], fl[k]);
    forall j: nat | j < |r| ensures Apart(r[j], fl[k]) {
      if j < k { assert Before(fl[j], fl[k]); } else { assert Before(fl[k], fl[j + 1]); }
    }
    forall b | b in live ensures LiveBlk(r, b) && Apart(b, fl[k]) && Apart(fl[k], b) { assert LiveBlk(fl, b); }
  }

  lemma RemoveUnits(fl: seq<Blk>, k: nat, u: nat)
    requires Ordered(fl) && 0 < k < |fl|
    ensures IsFree(fl, u) <==> IsFree(Remove(fl, k), u) || Within(fl[k], u)
  {
    var r := Remove(fl, k);
    if IsFree(fl, u) {
      var j: nat :| j < |fl| && Within(fl[j], u);
      if j < k { assert r[j] == fl[j]; } else if j > k { assert r[j - 1] == fl[j]; }
    }
    if IsFree(r, u) {
      var j: nat :| j < |r| && Within(r[j], u);
      assert r[j] == if j < k then fl[j] else fl[j + 1];
    }
  }

  /** The tail of free block k is taken. */
  function Tail(fl: seq<Blk>, k: nat, n: nat): (b: Blk)
    requires k < |fl| && n <= fl[k].size
  {
    Blk(fl[k].addr + fl[k].size - n, n)
  }

  function Cut(fl: seq<Blk>, k: nat, n: nat): (r: seq<Blk>)
    requires k < |fl| && n <= fl[k].size
  {
    fl[k := Blk(fl[k].addr, fl[k].size - n)]
  }

  lemma CutOk(fl: seq<Blk>, k: nat, n: nat, live: set<Blk>)
    requires Ordered(fl) && LiveOk(fl, live) && 0 < k < |fl| && 0 < n < fl[k].size
    ensures Ordered(Cut(fl, k, n)) && LiveOk(Cut(fl, k, n), live + {Tail(fl, k, n)}) && Tail(fl, k, n) !in live
  {
    var r, t := Cut(fl, k, n), Tail(fl, k, n);
    assert t in live ==> LiveBlk(fl, t) && Apart(fl[k], t);
    forall i: nat, j: nat | i < j < |r| ensures Before(r[i], r[j]) { assert Before(fl[i], fl[j]); }
    assert Before(fl[0], fl[k]);
    forall j: nat | j < |r| ensures Apart(r[j], t) {
      if j < k { assert Before(fl[j], fl[k]); } else if k < j { assert Before(fl[k], fl[j]); }
    }
    forall b | b in live ensures LiveBlk(r, b) && Apart(b, t) && Apart(t, b) {
      assert LiveBlk(fl, b) && Apart(fl[k], b);
    }
  }

  lemma CutUnits(fl: seq<Blk>, k: nat, n: nat, u: nat)
    requires k < |fl| && n <= fl[k].size
    ensures IsFree(fl, u) <==> IsFree(Cut(fl, k, n), u) || Within(Tail(fl, k, n), u)
  {
    var r, t := Cut(fl, k, n), Tail(fl, k, n);
    if IsFree(fl, u) {
      var j: nat :| j < |fl| && Within(fl[j], u);
      assert Within(r[j], u) || Within(t, u);
    }
    if IsFree(r, u) {
      var j: nat :| j < |r| && Within(r[j], u);
      assert Within(fl[j], u);
    }
    if Within(t, u) { assert Within(fl[k], u); }
  }

  // ----- every unit is in one block -----

  lemma OneFreeBlock(fl: seq<Blk>, j: nat, k: nat, u: nat)
    requires Ordered(fl) && j < k < |fl|
    ensures !(Within(fl[j], u) && Within(fl[k], u))
  {
    assert Before(fl[j], fl[k]);
  }

  lemma OneLiveBlock(fl: seq<Blk>, live: set<Blk>, a: Blk, b: Blk, u: nat)
    requires LiveOk(fl, live) && a in live && b in live && Within(a, u) && Within(b, u)
    ensures a == b
  {
    assert a != b ==> Apart(a, b);
  }

  /** No unit is both free and in use. */
  lemma FreeOrInUse(fl: seq<Blk>, live: set<Blk>, u: nat)
    requires Ordered(fl) && LiveOk(fl, live) && IsFree(fl, u)
    ensures !InUse(live, u)
  {
    var k: nat :| k < |fl| && Within(fl[k], u);
    forall b | b in live ensures !Within(b, u) { assert LiveBlk(fl, b) && Apart(fl[k], b); }
  }
}
