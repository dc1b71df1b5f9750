/** The pipe (kernel/pipe.c): a ring of bytes with 32-bit counters that wrap around, shared
    by any number of readers and writers. Each method is one stretch of code that runs with
    the pipe's lock held: from acquire, or from waking up, to release or to going to sleep. */
module Pipe {

  const PIPESIZE: nat := 512
  const WRAP: nat := 0x1_0000_0000

  datatype WriteEnd = Slept | Failed | Wrote
  datatype ReadEnd = Asleep | Killed | Read(count: int)

  lemma RingSlot(n: nat)
    ensures (n % WRAP) % PIPESIZE == n % PIPESIZE
  {
    var a, b := n / WRAP, n % WRAP;
    assert n == WRAP * a + b && WRAP * a == PIPESIZE * (8388608 * a);
    SameSlot(8388608 * a, b);
  }

  lemma SameSlot(a: nat, b: nat)
    ensures (PIPESIZE * a + b) % PIPESIZE == b % PIPESIZE
  {}

  lemma NextCount(n: nat)
    ensures (n % WRAP + 1) % WRAP == (n + 1) % WRAP
  {}

  /** The two tests on the counters mean what they should, wrapped around or not. */
  lemma CountersTell(r: nat, w: nat)
    requires r <= w <= r + PIPESIZE
    ensures r % WRAP == w % WRAP <==> r == w
    ensures w % WRAP == (r % WRAP + PIPESIZE) % WRAP <==> w == r + PIPESIZE
  {}

  lemma OtherSlot(k: nat, n: nat)
    requires k < n < k + PIPESIZE
    ensures k % PIPESIZE != n % PIPESIZE
  {}

  class Pipe {
    const data: array<int>
    var nread: nat
    var nwrite: nat
    var readopen: bool
    var writeopen: bool
    ghost var written: seq<int>       // every byte ever stored, in order
    ghost var got: seq<int>           // every byte ever read, in order
    var asleepOnWrite: set<nat>       // the processes asleep on &nwrite
    var asleepOnRead: set<nat>        // the processes asleep on &nread

    ghost function Count(): (r: int)
      reads this`written, this`got
    {
      |written| - |got|
    }

    ghost predicate Bounded()
      reads this`written, this`got, this`nread, this`nwrite
    {
      && data.Length == PIPESIZE && 0 <= Count() <= PIPESIZE
      && nwrite == |written| % WRAP && nread == |got| % WRAP
    }

    ghost predicate Holds(k: nat)
      requires data.Length == PIPESIZE && k < |written|
      reads this`written, data
    {
      data[k % PIPESIZE] == written[k]
    }

    /** The bytes read are the first bytes written; the rest, at most PIPESIZE, are in the ring. */
    ghost predicate Fifo()
      reads this`written, this`got, this`nread, this`nwrite, data
    {
      && Bounded() && got <= written
      && forall k: nat :: |got| <= k < |written| ==> Holds(k)
    }

    /** A writer sleeps only while the pipe is full and the read end open. */
    ghost predicate WritersOk()
      reads this
    {
      asleepOnWrite != {} ==> Count() == PIPESIZE && readopen && writeopen
    }

    /** The lock is free. */
    ghost predicate Valid()
      reads this, data
    {
      Fifo() && WritersOk() && (asleepOnRead != {} ==> readopen && writeopen)
    }

    /** A reader sleeps although there is something to read. */
    ghost predicate Stale()
      reads this
    {
      asleepOnRead != {} && Count() != 0
    }

    /** A reader sleeps, and a writer with these bytes left is killed between two of them. */
    ghost predicate LeavesStale(n: nat, start: nat, good: nat, kill: nat)
      reads this
    {
      && readopen && asleepOnRead != {}
      && 0 < kill && start + kill < n && start + kill <= good && Count() + kill <= PIPESIZE
    }

    constructor ()
      ensures Valid() && fresh(data) && readopen && writeopen && written == got == []
      ensures asleepOnRead == asleepOnWrite == {}
    {
      data := new int[PIPESIZE];
      nread, nwrite, readopen, writeopen := 0, 0, true, true;
      written, got, asleepOnRead, asleepOnWrite := [], [], {}, {};
    }

    /** Stores one byte in a pipe that is not full. */
    method Store(ch: int)
      requires Fifo() && Count() < PIPESIZE
      modifies this`nwrite, this`written, data
      ensures Fifo() && written == old(written) + [ch]
    {
      ghost var n := |written|;
      RingSlot(n);
      NextCount(n);
      data[nwrite % PIPESIZE] := ch;
      nwrite := (nwrite + 1) % WRAP;
      written := written + [ch];
      forall k: nat | |got| <= k < |written|
        ensures Holds(k)
      {
        if k < n {
          assert old(Holds(k));
          OtherSlot(k, n);
        }
      }
    }

    /** A stretch of pipewrite by process p, which has stored src[..start] so far. copyin can
        read good bytes of src, and killed(pr) turns true in round kill of the loop. */
    method WriteSection(p: nat, src: seq<int>, start: nat, good: nat, kill: nat) returns (i: nat, end: WriteEnd)
      requires Valid() && start <= |src| && p !in asleepOnRead
      requires writeopen  // the caller has the write end open
      modifies this, data
      ensures Valid() && readopen == old(readopen) && writeopen && got == old(got)
      ensures start <= i <= |src| && written == old(written) + src[start..i]
      ensures end.Slept? ==> Count() == PIPESIZE && readopen && i < |src|
      ensures end.Slept? ==> asleepOnWrite == old(asleepOnWrite) + {p} && asleepOnRead == {}
      ensures end.Failed? ==> i < |src| && (if readopen then i == start + kill else i == start)
      ensures end.Failed? ==> asleepOnWrite == old(asleepOnWrite) && asleepOnRead == old(asleepOnRead)
      ensures end.Wrote? ==> (i == |src| || good <= i) && asleepOnWrite == old(asleepOnWrite) && asleepOnRead == {}
      ensures i > start ==> i <= good
      ensures i <= start + kill && (i == start + kill < |src| ==> end.Failed?)
      // readers are left asleep over unread bytes exactly when the writer is killed after storing
      // a byte and before it fills the pipe, runs out of bytes or meets one it cannot read
      ensures !old(Stale()) ==> (Stale() <==> old(LeavesStale(|src|, start, good, kill)))
    {
      i := start;
      while i < |src|
        invariant start <= i <= |src| && i <= start + kill
        invariant Valid() && readopen == old(readopen) && writeopen && got == old(got)
        invariant i > start ==> i <= good && readopen
        invariant written == old(written) + src[start..i]
        invariant asleepOnRead == old(asleepOnRead) && asleepOnWrite == old(asleepOnWrite)
        decreases |src| - i
      {
        CountersTell(|got|, |written|);
        if !readopen || i == start + kill {
          return i, Failed;
        }
        if nwrite == (nread + PIPESIZE) % WRAP {
          asleepOnRead := {};
          asleepOnWrite := asleepOnWrite + {p};
          return i, Slept;
        }
        if i >= good {
          break;
        }
        Store(src[i]);
        i := i + 1;
      }
      asleepOnRead := {};
      end := Wrote;
    }

    /** Reads the next byte of a pipe that is not empty. */
    method Fetch() returns (ch: int)
      requires Fifo() && Count() > 0
      ensures ch == written[|got|]
    {
      RingSlot(|got|);
      assert Holds(|got|);
      ch := data[nread % PIPESIZE];
    }

    method Advance()
      requires Fifo() && Count() > 0
      modifies this`nread, this`got
      ensures Fifo() && got == old(got) + [written[|old(got)|]]
    {
      NextCount(|got|);
      nread := (nread + 1) % WRAP;
      got := got + [written[|got|]];
    }

    /** A stretch of piperead by process p, asking for n bytes. copyout can write good
        bytes, and dead says what killed(pr) returns. */
    method ReadSection(p: nat, n: int, good: nat, dead: bool) returns (out: seq<int>, end: ReadEnd)
      requires Valid() && p !in asleepOnWrite
      requires readopen  // the caller has the read end open
      modifies this
      ensures Valid() && readopen && writeopen == old(writeopen) && written == old(written)
      ensures got == old(got) + out
      ensures end.Read? <==> old(Count() != 0 || !writeopen)
      ensures end.Read? ==> |out| == Least(n, good, old(Count()))
      ensures end.Read? ==> end.count == if n > 0 && good == 0 && old(Count()) > 0 then -1 else |out|
      ensures end.Read? ==> asleepOnWrite == {} && asleepOnRead == old(asleepOnRead)
      ensures !end.Read? ==>
        out == [] && asleepOnWrite == old(asleepOnWrite) && end == (if dead then Killed else Asleep)
      ensures !end.Read? ==> asleepOnRead == if dead then old(asleepOnRead) else old(asleepOnRead) + {p}
      ensures Stale() ==> old(Stale())
    {
      out := [];
      CountersTell(|got|, |written|);
      if nread == nwrite && writeopen {
        if dead {
          return out, Killed;
        }
        asleepOnRead := asleepOnRead + {p};
        return out, Asleep;
      }
      ghost var count := Count();
      var i := 0;
      while i < n
        invariant 0 <= i && i == |out| && i <= good && i <= count && (i <= n || i == 0)
        invariant Fifo() && got == old(got) + out && written == old(written)
        invariant Count() == count - i
        invariant readopen && writeopen == old(writeopen)
        invariant asleepOnRead == old(asleepOnRead) && asleepOnWrite == old(asleepOnWrite)
      {
        CountersTell(|got|, |written|);
        if nread == nwrite {
          break;
        }
        var ch := Fetch();
        if i == good {
          if i == 0 {
            i := -1;
          }
          break;
        }
        Advance();
        out := out + [ch];
        i := i + 1;
      }
      asleepOnWrite := {};
      end := Read(i);
    }

    static function Least(n: int, good: nat, count: int): (r: int) {
      if n <= 0 then 0 else if n <= good && n <= count then n else if good <= count then good else count
    }

    /** pipeclose; the last close of either end, so nobody is inside a call on that end. */
    method Close(writable: bool) returns (freed: bool)
      requires Valid()
      requires if writable then writeopen && asleepOnWrite == {} else readopen && asleepOnRead == {}
      modifies this
      ensures Valid() && written == old(written) && got == old(got)
      ensures writable ==> !writeopen && readopen == old(readopen) && asleepOnRead == {}
      ensures !writable ==> !readopen && writeopen == old(writeopen) && asleepOnWrite == {}
      ensures freed <==> !readopen && !writeopen
      ensures Stale() ==> old(Stale())
    {
      if writable {
        writeopen := false;
        asleepOnRead := {};
      } else {
        readopen := false;
        asleepOnWrite := {};
      }
      freed := !readopen && !writeopen;
    }

    /** kkill makes a sleeping process runnable, whatever it waits for. */
    method Rouse(p: nat)
      requires Valid()
      modifies this`asleepOnRead, this`asleepOnWrite
      ensures Valid() && asleepOnRead == old(asleepOnRead) - {p} && asleepOnWrite == old(asleepOnWrite) - {p}
      ensures Stale() ==> old(Stale())
    {
      asleepOnRead := asleepOnRead - {p};
      asleepOnWrite := asleepOnWrite - {p};
    }
  }

  /** A reader can be left asleep over an unread byte: process 1 finds the pipe empty and
      sleeps, process 2 is killed after storing the first of its two bytes. */
  method ReaderLeftAsleep() returns (pi: Pipe)
    ensures fresh(pi) && pi.Valid() && pi.Stale() && 1 in pi.asleepOnRead && pi.written == [7]
  {
    pi := new Pipe();
    var out, rend := pi.ReadSection(1, 1, 1, false);
    var i, wend := pi.WriteSection(2, [7, 8], 0, 2, 1);
    assert [7, 8][0..1] == [7];
  }
}
