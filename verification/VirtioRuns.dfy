/** Every run of the driver and the device, in any interleaving of submissions, device
    steps, interrupts and wake-ups. */
module VirtioRuns {
  import opened Common
  import opened VirtioRing
  import opened VirtioSteps

  datatype State = State(q: Queue, h: History)

  ghost predicate Init(s: State) {
    && Shape(s.q) && s.h == History([], 0, [], 0, {})
    && s.q.availIdx == s.q.usedIdx == s.q.usedSeen == s.q.devIdx == 0 && s.q.busy == {}
    && (forall i: nat :: i < NUM ==> s.q.free[i] && s.q.desc[i] == Desc(Null, 0, 0))
  }

  ghost predicate SubmitStep(s: State, s': State, r: Req) {
    Shape(s.q) && CanSubmit(s.q, s.h, r) && s' == State(Posted(s.q, r), Submitted(s.h, r))
  }

  ghost predicate TakeStep(s: State, s': State) {
    s.q.devIdx != s.q.availIdx && s' == State(DeviceTook(s.q), Took(s.h))
  }

  ghost predicate CompleteStep(s: State, s': State, k: nat) {
    && Shape(s.q) && CanComplete(s.h, k) && Linked(s.q, s.h.subs[k])
    && s' == State(DeviceDid(s.q, s.h.subs[k].head), Completed(s.h, k))
  }

  ghost predicate SeeStep(s: State, s': State, id: nat) {
    && Shape(s.q) && s.q.usedSeen != s.q.usedIdx && id == s.q.usedRing[s.q.usedSeen % NUM]
    && id < NUM && s.q.infoBuf[id].Some?
    && s' == State(Noticed(s.q, s.q.infoBuf[id].value), Seen(s.h))
  }

  ghost predicate FinishStep(s: State, s': State, k: nat) {
    && Shape(s.q) && Live(s.h, k) && s.h.subs[k].buf !in s.q.busy
    && s.h.subs[k].head < NUM && s.h.subs[k].data < NUM && s.h.subs[k].tail < NUM
    && s' == State(Freed(s.q, s.h.subs[k]), Finished(s.h, k))
  }

  ghost predicate Next(s: State, s': State) {
    || (exists r :: SubmitStep(s, s', r))
    || TakeStep(s, s')
    || (exists k :: CompleteStep(s, s', k))
    || (exists id :: SeeStep(s, s', id))
    || (exists k :: FinishStep(s, s', k))
  }

  ghost predicate IsRun(run: seq<State>) {
    && |run| > 0 && Init(run[0])
    && forall i: nat :: i + 1 < |run| ==> Next(run[i], run[i + 1])
  }

  lemma InitValid(s: State)
    requires Init(s)
    ensures Valid(s.q, s.h)
  {
    forall i: nat | i < NUM
      ensures FreeOk(s.q, s.h, i)
    {}
  }

  lemma NextValid(s: State, s': State)
    requires Valid(s.q, s.h) && Next(s, s')
    ensures Valid(s'.q, s'.h)
  {
    if r :| SubmitStep(s, s', r) {
      SubmitKeeps(s.q, s.h, r);
    } else if TakeStep(s, s') {
      TakeFinds(s.q, s.h);
      TakeKeeps(s.q, s.h);
    } else if k :| CompleteStep(s, s', k) {
      CompleteKeeps(s.q, s.h, k);
    } else if id :| SeeStep(s, s', id) {
      SeenFinds(s.q, s.h);
      SeenKeeps(s.q, s.h);
    } else {
      var k :| FinishStep(s, s', k);
      assert ReqOk(s.q, s.h, k);
      FinishKeeps(s.q, s.h, k);
    }
  }

  /** The invariant holds throughout every run. */
  lemma {:induction false} EveryRunValid(run: seq<State>, i: nat)
    requires IsRun(run) && i < |run|
    ensures Valid(run[i].q, run[i].h)
  {
    if i == 0 {
      InitValid(run[0]);
    } else {
      EveryRunValid(run, i - 1);
      NextValid(run[i - 1], run[i - 1 + 1]);
    }
  }

  /** Each descriptor is free, or in the chain of exactly one request under way. */
  lemma FreeOrOneChain(run: seq<State>, n: nat, i: nat)
    requires IsRun(run) && n < |run| && i < NUM
    ensures |run[n].q.free| == NUM
    ensures run[n].q.free[i] <==> !InChain(run[n].h, i)
    ensures forall j: nat, k: nat ::
      Live(run[n].h, j) && Live(run[n].h, k) && Uses(run[n].h.subs[j], i) && Uses(run[n].h.subs[k], i) ==> j == k
  {
    EveryRunValid(run, n);
    var q, h := run[n].q, run[n].h;
    assert FreeOk(q, h, i);
    if InChain(h, i) {
      var k: nat :| Live(h, k) && Uses(h.subs[k], i);
      assert ReqOk(q, h, k);
    }
    forall j: nat, k: nat | Live(h, j) && Live(h, k) && Uses(h.subs[j], i) && Uses(h.subs[k], i)
      ensures j == k
    {
      assert j != k ==> Apart(h, j, k);
    }
  }

  /** The id the interrupt handler reads names the buffer of the request that completed:
      one that was submitted, has not been seen before, and still waits for the disk. */
  lemma CompletionNamesSubmitter(run: seq<State>, n: nat, id: nat)
    requires IsRun(run) && n + 1 < |run| && SeeStep(run[n], run[n + 1], id)
    ensures run[n].h.seen < |run[n].h.comps| && Announced(run[n].q, run[n].h, id)
    ensures Live(run[n].h, run[n].h.comps[run[n].h.seen])
    ensures run[n].h.comps[run[n].h.seen] !in run[n].h.comps[..run[n].h.seen]
  {
    EveryRunValid(run, n);
    SeenFinds(run[n].q, run[n].h);
    UnseenLive(run[n].q, run[n].h, run[n].h.seen);
  }

  /** A process goes on only after the device has completed its request, once, and the
      handler has seen it; the request never completes again. */
  lemma FinishedCompletedOnce(run: seq<State>, n: nat, k: nat)
    requires IsRun(run) && n < |run| && k in run[n].h.finished
    ensures run[n].h.seen <= |run[n].h.comps| && k in run[n].h.comps[..run[n].h.seen]
    ensures forall i: nat, j: nat :: i < j < |run[n].h.comps| ==> run[n].h.comps[i] != run[n].h.comps[j]
    ensures !CanComplete(run[n].h, k)
  {
    EveryRunValid(run, n);
  }

  /** When every request is finished with, every descriptor is free again. */
  lemma NoDescriptorLost(run: seq<State>, n: nat)
    requires IsRun(run) && n < |run|
    requires forall k: nat :: k < |run[n].h.subs| ==> k in run[n].h.finished
    ensures |run[n].q.free| == NUM
    ensures forall i: nat :: i < NUM ==> run[n].q.free[i]
  {
    EveryRunValid(run, n);
    forall i: nat | i < NUM
      ensures run[n].q.free[i]
    {
      assert FreeOk(run[n].q, run[n].h, i);
    }
  }
}
