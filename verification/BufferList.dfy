/** The buffer cache as kernel/bio.c stores it: buffers linked into one circular
    doubly linked list through a list head. Every method is proved to perform
    the operation of the same name on the value given by Abs(). */
module BufferList {
  import opened Common
  import opened Blocks
  import opened BufferCache

  const HEAD: nat := NBUF  // &bcache.head

  /** The nodes met when going once round the list, head first and last. */
  ghost function Ring(order: seq<nat>): (r: seq<nat>) {
    [HEAD] + order + [HEAD]
  }

  ghost predicate Linked(next: seq<nat>, prev: seq<nat>, order: seq<nat>) {
    && |next| == |prev| == NBUF + 1
    && (forall i :: 0 <= i < |order| ==> order[i] < NBUF)
    && Distinct(order)
    && forall i :: 0 <= i <= |order| ==> Edge(next, prev, Ring(order), i)
  }

  /** Nodes i and i + 1 of the round point at each other. */
  ghost predicate Edge(next: seq<nat>, prev: seq<nat>, ring: seq<nat>, i: nat)
    requires i + 1 < |ring| && ring[i] < |next| && ring[i + 1] < |prev|
  {
    next[ring[i]] == ring[i + 1] && prev[ring[i + 1]] == ring[i]
  }

  /** Going round, only the head is met twice. */
  lemma RingDistinct(order: seq<nat>, i: nat, j: nat)
    requires Distinct(order) && (forall k :: 0 <= k < |order| ==> order[k] < NBUF)
    requires i < j < |order| + 2 && !(i == 0 && j == |order| + 1)
    ensures Ring(order)[i] != Ring(order)[j]
  {
    assert 0 < i ==> Ring(order)[i] == order[i - 1];
    assert j <= |order| ==> Ring(order)[j] == order[j - 1];
  }

  lemma UnlinkEdge(next: seq<nat>, prev: seq<nat>, order: seq<nat>, k: nat, i: nat)
    requires Linked(next, prev, order) && k < |order| && i < |order|
    ensures next[order[k]] <= NBUF && prev[order[k]] <= NBUF
    ensures var rest := Ring(order[..k] + order[k + 1..]);
      && rest[i] <= NBUF && rest[i + 1] <= NBUF
      && Edge(next[prev[order[k]] := next[order[k]]], prev[next[order[k]] := prev[order[k]]], rest, i)
  {
    var r, rest := Ring(order), Ring(order[..k] + order[k + 1..]);
    assert r[k + 1] == order[k] && Edge(next, prev, r, k + 1) && Edge(next, prev, r, k);
    assert rest[i] == r[if i <= k then i else i + 1] && rest[i + 1] == r[if i < k then i + 1 else i + 2];
    if i != k {
      var j := if i < k then i else i + 1;
      assert Edge(next, prev, r, j);
      if j < k {
        RingDistinct(order, j, k);
        RingDistinct(order, j + 1, k + 2);
      } else {
        RingDistinct(order, k, j);
        RingDistinct(order, k + 2, j + 1);
      }
    }
  }

  lemma UnlinkKeepsList(next: seq<nat>, prev: seq<nat>, order: seq<nat>, k: nat)
    requires Linked(next, prev, order) && k < |order|
    ensures next[order[k]] <= NBUF && prev[order[k]] <= NBUF
    ensures Linked(next[prev[order[k]] := next[order[k]]], prev[next[order[k]] := prev[order[k]]],
                   order[..k] + order[k + 1..])
  {
    var rest := order[..k] + order[k + 1..];
    UnlinkEdge(next, prev, order, k, 0);
    forall i | 0 <= i < |rest| ensures rest[i] == order[if i < k then i else i + 1] {}
    var next', prev' := next[prev[order[k]] := next[order[k]]], prev[next[order[k]] := prev[order[k]]];
    forall i | 0 <= i <= |rest| ensures Edge(next', prev', Ring(rest), i) { UnlinkEdge(next, prev, order, k, i); }
  }

  lemma PushEdge(next: seq<nat>, prev: seq<nat>, order: seq<nat>, b: nat, i: nat)
    requires Linked(next, prev, order) && b < NBUF && b !in order && i <= |order| + 1
    ensures next[HEAD] <= NBUF && Ring([b] + order)[i] <= NBUF && Ring([b] + order)[i + 1] <= NBUF
    ensures Edge(next[b := next[HEAD]][HEAD := b], prev[b := HEAD][next[HEAD] := b], Ring([b] + order), i)
  {
    var r, r' := Ring(order), Ring([b] + order);
    assert r[0] == HEAD && Edge(next, prev, r, 0) && r'[0] == HEAD && r'[1] == b;
    assert 0 < i ==> r'[i + 1] == r[i];
    assert 1 < i ==> r'[i] == r[i - 1];
    if i > 1 {
      assert r[i - 1] == order[i - 2] && Edge(next, prev, r, i - 1);
      RingDistinct(order, 1, i);
    }
  }

  lemma PushKeepsList(next: seq<nat>, prev: seq<nat>, order: seq<nat>, b: nat)
    requires Linked(next, prev, order) && b < NBUF && b !in order
    ensures next[HEAD] <= NBUF
    ensures Linked(next[b := next[HEAD]][HEAD := b], prev[b := HEAD][next[HEAD] := b], [b] + order)
  {
    PushEdge(next, prev, order, b, 0);
    var next', prev' := next[b := next[HEAD]][HEAD := b], prev[b := HEAD][next[HEAD] := b];
    forall i | 0 <= i <= |[b] + order| ensures Edge(next', prev', Ring([b] + order), i) {
      PushEdge(next, prev, order, b, i);
    }
  }

  class Bcache {
    var next: array<nat>
    var prev: array<nat>
    var buf: array<Buf>
    ghost var order: seq<BufId>

    ghost predicate Valid()
      reads this, next, prev, buf
    {
      && next != prev
      && buf.Length == NBUF
      && IsOrder(order)
      && Linked(next[..], prev[..], order)
    }

    ghost function Abs(): (c: Cache)
      reads this, next, prev, buf
      requires Valid()
    {
      Cache(order, buf[..])
    }

    /** binit */
    constructor ()
      ensures Valid() && Abs() == Init()
      ensures fresh(next) && fresh(prev) && fresh(buf)
    {
      next := new nat[NBUF + 1](_ => HEAD);
      prev := new nat[NBUF + 1](_ => HEAD);
      buf := new Buf[NBUF](_ => Buf(false, 0, 0, false, 0, ZERO));
      order := [];
      new;
      for b := 0 to NBUF
        invariant next != prev && fresh(next) && fresh(prev) && fresh(buf)
        invariant |order| == b && forall i :: 0 <= i < b ==> order[i] == b - 1 - i
        invariant Linked(next[..], prev[..], order)
        invariant buf.Length == NBUF && buf[..] == Init().bufs
      {
        PushKeepsList(next[..], prev[..], order, b);
        PushFront(b);
        order := [b] + order;
      }
      assert order == Init().order;
    }

    /** bget's first loop: the first node from head.next on that holds the block. */
    method FindCached(dev: nat, blockno: nat) returns (b: nat)
      requires Valid()
      ensures b == HEAD <==> FirstMatch(Abs(), dev, blockno, 0) == NBUF
      ensures b != HEAD ==> b < NBUF && Choose(Abs(), dev, blockno) == Some(b) && Holds(buf[b], dev, blockno)
    {
      b := next[HEAD];
      ghost var k, c := 0, Abs();
      assert Edge(next[..], prev[..], Ring(order), 0);
      while b != HEAD && !(buf[b].dev == dev && buf[b].blockno == blockno)
        invariant 0 <= k <= NBUF && b == Ring(order)[k + 1]
        invariant FirstMatch(c, dev, blockno, 0) == FirstMatch(c, dev, blockno, k)
        decreases NBUF - k
      {
        assert b == order[k] && Edge(next[..], prev[..], Ring(order), k + 1);
        b := next[b];
        k := k + 1;
      }
    }

    /** bget's second loop: the first unreferenced node from head.prev back. */
    method FindUnused(ghost dev: nat, ghost blockno: nat) returns (b: nat)
      requires Valid() && FirstMatch(Abs(), dev, blockno, 0) == NBUF
      ensures b == HEAD <==> Choose(Abs(), dev, blockno) == None
      ensures b != HEAD ==> b < NBUF && Choose(Abs(), dev, blockno) == Some(b) && !Holds(buf[b], dev, blockno)
    {
      b := prev[HEAD];
      ghost var k, c := NBUF, Abs();
      assert Edge(next[..], prev[..], Ring(order), NBUF);
      while b != HEAD && buf[b].refcnt != 0
        invariant 0 <= k <= NBUF && b == Ring(order)[k]
        invariant LastUnused(c, NBUF) == LastUnused(c, k)
        decreases k
      {
        assert b == order[k - 1] && Edge(next[..], prev[..], Ring(order), k - 1);
        b := prev[b];
        k := k - 1;
      }
    }

    /** bget up to the release of bcache.lock; None is the "bget: no buffers" panic. */
    method Bget(dev: nat, blockno: nat) returns (r: Option<BufId>)
      requires Valid()
      modifies buf
      ensures Valid() && unchanged(this)
      ensures r == Choose(old(Abs()), dev, blockno)
      ensures Abs() == if r.Some? then Get(old(Abs()), dev, blockno) else old(Abs())
    {
      var b := FindCached(dev, blockno);
      if b != HEAD {
        Store(b, buf[b].(refcnt := buf[b].refcnt + 1));
        return Some(b);
      }
      b := FindUnused(dev, blockno);
      if b != HEAD {
        Store(b, buf[b].(dev := dev, blockno := blockno, valid := false, refcnt := 1));
        return Some(b);
      }
      r := None;
    }

    /** Assignments to fields of one buffer other than its links. */
    method Store(b: BufId, x: Buf)
      requires Valid()
      modifies buf
      ensures Valid() && unchanged(this) && Abs() == SetBuf(old(Abs()), b, x)
    {
      buf[b] := x;
    }

    /** b->next->prev = b->prev; b->prev->next = b->next; */
    method Unlink(b: BufId)
      requires next != prev && next.Length == prev.Length == NBUF + 1
      requires next[b] <= NBUF && prev[b] <= NBUF && next[b] != b
      modifies next, prev
      ensures next[..] == old(next[..])[old(prev[b]) := old(next[b])]
      ensures prev[..] == old(prev[..])[old(next[b]) := old(prev[b])]
    {
      prev[next[b]] := prev[b];
      next[prev[b]] := next[b];
    }

    /** Insert b after the list head. */
    method PushFront(b: BufId)
      requires next != prev && next.Length == prev.Length == NBUF + 1 && next[HEAD] <= NBUF
      modifies next, prev
      ensures next[..] == old(next[..])[b := old(next[HEAD])][HEAD := b]
      ensures prev[..] == old(prev[..])[b := HEAD][old(next[HEAD]) := b]
    {
      next[b] := next[HEAD];
      prev[b] := HEAD;
      prev[next[HEAD]] := b;
      next[HEAD] := b;
    }

    /** brelse after releasesleep. */
    method Brelse(b: BufId)
      requires Valid() && buf[b].refcnt > 0
      modifies this`order, next, prev, buf
      ensures next == old(next) && prev == old(prev) && buf == old(buf)
      ensures Valid() && b in old(order) && Abs() == Put(old(Abs()), b)
    {
      ghost var k := Position(order, b);
      Store(b, buf[b].(refcnt := buf[b].refcnt - 1));
      if buf[b].refcnt == 0 {
        UnlinkKeepsList(next[..], prev[..], order, k);
        RemoveAt(order, k);
        ghost var rest := order[..k] + order[k + 1..];
        assert Ring(order)[k + 1] == b && Edge(next[..], prev[..], Ring(order), k + 1);
        Unlink(b);
        PushKeepsList(next[..], prev[..], rest, b);
        PushFront(b);
        order := [b] + rest;
      }
    }

    method Bpin(b: BufId)
      requires Valid()
      modifies buf
      ensures Valid() && unchanged(this) && Abs() == Do(old(Abs()), BufferCache.Bpin(b))
    {
      Store(b, buf[b].(refcnt := buf[b].refcnt + 1));
    }

    method Bunpin(b: BufId)
      requires Valid() && buf[b].refcnt > 0
      modifies buf
      ensures Valid() && unchanged(this) && Abs() == Do(old(Abs()), BufferCache.Bunpin(b))
    {
      Store(b, buf[b].(refcnt := buf[b].refcnt - 1));
    }
  }
}
