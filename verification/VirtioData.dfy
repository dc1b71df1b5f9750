/** What the requests of the disk driver have moved. */
module VirtioData {
  import opened VirtioRing
  import opened VirtioSteps

  type Block = seq<int>

  function At(m: map<nat, Block>, k: nat): (x: Block) { if k in m then m[k] else [] }

  /** The contents that belong to a request: those of the buffer when a write is submitted,
      and those of the sector when a read completes. */
  type Contents = map<nat, Block>

  /** While the driver waits for it, a buffer to be written holds what it held at the
      submission, and one that has been read holds what the sector held at the completion. */
  ghost predicate BuffersOk(h: History, mem: map<nat, Block>, data: Contents) {
    forall k: nat :: Live(h, k) && (h.subs[k].write || k in h.comps) ==> k in data && At(mem, h.subs[k].buf) == data[k]
  }

  /** The disk after the completed writes, in the order of completion. */
  ghost function Replay(initial: map<nat, Block>, subs: seq<Req>, comps: seq<nat>, data: Contents): (m: map<nat, Block>)
  {
    if comps == [] then initial
    else
      var k, m := comps[|comps| - 1], Replay(initial, subs, comps[..|comps| - 1], data);
      if k < |subs| && subs[k].write then m[subs[k].sector := At(data, k)] else m
  }

  /** What happens to other requests does not change what has been replayed. */
  lemma {:induction false} ReplaySame(initial: map<nat, Block>, subs: seq<Req>, comps: seq<nat>, data: Contents,
                                      subs': seq<Req>, data': Contents)
    requires forall k :: k in comps ==> k < |subs| <= |subs'| && subs'[k] == subs[k] && At(data', k) == At(data, k)
    ensures Replay(initial, subs', comps, data') == Replay(initial, subs, comps, data)
    decreases |comps|
  {
    if comps != [] {
      var k := comps[|comps| - 1];
      assert k in comps && forall j :: j in comps[..|comps| - 1] ==> j in comps;
      ReplaySame(initial, subs, comps[..|comps| - 1], data, subs', data');
    }
  }

  lemma ReplayOne(initial: map<nat, Block>, subs: seq<Req>, comps: seq<nat>, data: Contents, k: nat)
    requires k < |subs|
    ensures Replay(initial, subs, comps + [k], data) ==
            var m := Replay(initial, subs, comps, data); if subs[k].write then m[subs[k].sector := At(data, k)] else m
  {
    assert (comps + [k])[..|comps|] == comps;
  }

  /** One block has moved, in the direction and to the place that was asked for: a read takes
      what the sector holds, a write puts there what the buffer held when it was submitted. */
  ghost predicate Moved(r: Req, k: nat, mem: map<nat, Block>, sectors: map<nat, Block>, data: Contents,
                        mem': map<nat, Block>, sectors': map<nat, Block>, data': Contents) {
    && k in data'
    && if r.write then mem' == mem && data' == data && sectors' == sectors[r.sector := data[k]]
       else sectors' == sectors && data' == data[k := At(sectors, r.sector)] && mem' == mem[r.buf := data'[k]]
  }

  // ----- the steps -----

  lemma CompsKnown(q: Queue, h: History)
    requires Valid(q, h)
    ensures forall k :: k in h.comps ==> k < h.taken && k < |h.subs|
  {
    forall j: nat | j < |h.comps|
      ensures h.comps[j] < h.taken && h.comps[j] < |h.subs|
    {
      assert CompOk(h, j);
    }
  }

  lemma SubmitData(q: Queue, h: History, r: Req, mem: map<nat, Block>, data: Contents, initial: map<nat, Block>)
    requires Valid(q, h) && BuffersOk(h, mem, data)
    ensures var h', data' := Submitted(h, r), if r.write then data[|h.subs| := At(mem, r.buf)] else data;
      BuffersOk(h', mem, data') && Replay(initial, h'.subs, h'.comps, data') == Replay(initial, h.subs, h.comps, data)
  {
    var h', data' := Submitted(h, r), if r.write then data[|h.subs| := At(mem, r.buf)] else data;
    CompsKnown(q, h);
    ReplaySame(initial, h.subs, h.comps, data, h'.subs, data');
    forall k: nat | Live(h', k) && (h'.subs[k].write || k in h'.comps)
      ensures k in data' && At(mem, h'.subs[k].buf) == data'[k]
    {
      if k < |h.subs| { assert Live(h, k); }
    }
  }

  /** A read completes: the buffer and the contents become those of the sector. */
  lemma ReadData(q: Queue, h: History, k: nat, x: Block, mem: map<nat, Block>, data: Contents, initial: map<nat, Block>)
    requires Valid(q, h) && BuffersOk(h, mem, data) && CanComplete(h, k) && Live(h, k) && !h.subs[k].write
    ensures var h', data' := Completed(h, k), data[k := x];
      && BuffersOk(h', mem[h.subs[k].buf := x], data')
      && Replay(initial, h'.subs, h'.comps, data') == Replay(initial, h.subs, h.comps, data)
  {
    var h', data' := Completed(h, k), data[k := x];
    CompsKnown(q, h);
    ReplaySame(initial, h.subs, h.comps, data, h.subs, data');
    ReplayOne(initial, h.subs, h.comps, data', k);
    forall j: nat | Live(h', j) && (h'.subs[j].write || j in h'.comps)
      ensures j in data' && At(mem[h.subs[k].buf := x], h'.subs[j].buf) == data'[j]
    {
      assert Live(h, j);
      if j != k { assert Apart(h, k, j); }
    }
  }

  /** A write completes: the sector gets the contents the buffer had at the submission. */
  lemma WriteData(q: Queue, h: History, k: nat, mem: map<nat, Block>, data: Contents, initial: map<nat, Block>)
    requires Valid(q, h) && BuffersOk(h, mem, data) && CanComplete(h, k) && Live(h, k) && h.subs[k].write
    ensures k in data && At(mem, h.subs[k].buf) == data[k] && BuffersOk(Completed(h, k), mem, data)
    ensures Replay(initial, h.subs, h.comps + [k], data) ==
            Replay(initial, h.subs, h.comps, data)[h.subs[k].sector := data[k]]
  {
    ReplayOne(initial, h.subs, h.comps, data, k);
    var h' := Completed(h, k);
    forall j: nat | Live(h', j) && (h'.subs[j].write || j in h'.comps)
      ensures j in data && At(mem, h'.subs[j].buf) == data[j]
    {
      assert Live(h, j);
    }
  }

  lemma FinishData(h: History, k: nat, mem: map<nat, Block>, data: Contents)
    requires BuffersOk(h, mem, data)
    ensures BuffersOk(Finished(h, k), mem, data)
  {
    forall j: nat | Live(Finished(h, k), j) && (h.subs[j].write || j in h.comps)
      ensures j in data && At(mem, h.subs[j].buf) == data[j]
    {
      assert Live(h, j);
    }
  }
}
