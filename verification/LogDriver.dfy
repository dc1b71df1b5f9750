/** The procedures of kernel/log.c as they run: loops over the logged blocks that
    read, copy and write buffers. Each takes only steps of the storage stack, so
    a crash between any two of its writes is covered by the theorems about runs.
    Other processes may hold buffers, but none of the log or of a logged block; waiting
    for one of those is a matter of the interleavings there. */
module LogDriver {
  import opened Common
  import opened Blocks
  import opened BufferCache
  import opened LogHeader
  import opened Storage
  import opened StorageSafety
  import opened CrashSafety
  import opened LogRoom

  /** write_head's loop over the header entries. */
  method FillHead(b: Block, lh: seq<Word>) returns (r: Block)
    requires |lh| <= LOGBLOCKS
    ensures r == PutHead(b, lh)
  {
    r := PutWord(b, 0, |lh|);
    for i := 0 to |lh|
      invariant r == PutEntries(PutWord(b, 0, |lh|), lh, i)
    {
      r := PutWord(r, 1 + i, lh[i]);
    }
  }

  /** read_head's loop over the header entries. */
  method LoadHead(b: Block) returns (lh: seq<Word>)
    requires HeadOk(b)
    ensures lh == Head(b)
  {
    lh := [];
    var n := GetWord(b, 0);
    for i := 0 to n
      invariant lh == Entries(b, i)
    {
      lh := lh + [GetWord(b, 1 + i)];
    }
  }

  /** log_write's search for a block already in the log. */
  method FindLogged(lh: seq<Word>, n: Word) returns (i: nat)
    ensures n in lh ==> i == IndexOf(lh, n)
    ensures n !in lh ==> i == |lh|
  {
    i := 0;
    while i < |lh| && lh[i] != n
      invariant i <= |lh| && n !in lh[..i]
    {
      i := i + 1;
    }
    if i < |lh| { FirstIndex(lh, n, i); }
  }

  lemma {:induction false} FirstIndex(s: seq<Word>, x: Word, i: nat)
    requires i < |s| && s[i] == x && x !in s[..i]
    ensures IndexOf(s, x) == i
  {
    if i > 0 {
      assert s[0] == s[..i][0];
      assert s[1..][..i - 1] == s[..i][1..];
      FirstIndex(s[1..], x, i - 1);
    }
  }

  /** Nothing but buffers that nobody holds, reference counts and the list. */
  ghost predicate Kept(w: World, w': World) {
    && w'.start == w.start && w'.disk == w.disk && w'.lh == w.lh
    && w'.ops == w.ops && w'.dirty == w.dirty && w'.phase == w.phase
  }

  ghost predicate Unlocked(w: World) {
    forall b: BufId :: !w.cache.bufs[b].locked
  }

  /** Exactly the buffers in held are locked. */
  ghost predicate LockedAre(w: World, held: set<BufId>) {
    forall b: BufId :: w.cache.bufs[b].locked <==> b in held
  }

  /** The buffers in others are locked, by processes that read other blocks than those commit works on. */
  ghost predicate Clear(w: World, others: set<BufId>) {
    LockedAre(w, others) && forall b :: b in others ==> NotOfLog(w, w.cache.bufs[b])
  }

  ghost predicate NotOfLog(w: World, x: Buf) { x.dev != DEV || (!IsLog(w, x.blockno) && x.blockno !in w.lh) }

  lemma ClearStays(w: World, w': World, others: set<BufId>)
    requires Clear(w, others) && LockedAre(w', others) && AllSame(w, w', others)
    requires w'.start == w.start && forall n :: n in w'.lh ==> n in w.lh
    ensures Clear(w', others)
  {}

  ghost predicate SameContents(w: World, w': World, b: BufId) {
    w'.cache.bufs[b] == w.cache.bufs[b].(refcnt := w'.cache.bufs[b].refcnt)
  }

  /** The buffers in bs hold the same blocks with the same contents. */
  ghost predicate AllSame(w: World, w': World, bs: set<BufId>) {
    forall b :: b in bs ==> SameContents(w, w', b)
  }

  /** write_head's bwrite changes the header block, the log and the phase, and no other buffer. */
  lemma HeadEffect(w: World, s: Step, hb: BufId, others: set<BufId>)
    requires Inv(w) && Enabled(w, s) && hb !in others && Has(w, hb, w.start) && LockedAre(w, others + {hb})
    requires s == CommitHead(hb) || s == EraseHead(hb) || s == RecoverHead(hb)
    ensures var w' := Next(w, s);
      && w'.users == w.users && w'.ops == w.ops && w'.start == w.start
      && Has(w', hb, w.start) && LockedAre(w', others + {hb}) && AllSame(w, w', others)
      && w.start < |w'.disk| && w'.disk[w.start] == PutHead(w.cache.bufs[hb].data, w'.lh)
  {}

  /** No buffer in held holds block n. */
  ghost predicate NoneHolds(w: World, held: set<BufId>, n: nat) {
    forall b :: b in held ==> !Holds(w.cache.bufs[b], DEV, n)
  }

  /** With the log block of an entry locked, nobody holds its home block. */
  lemma NobodyElse(w: World, w': World, others: set<BufId>, b: BufId, tail: nat)
    requires Inv(w) && Clear(w, others) && AllSame(w, w', others) && tail < |w.lh|
    requires Holds(w'.cache.bufs[b], DEV, w.start + tail + 1)
    ensures NoneHolds(w', others + {b}, w.lh[tail])
  {
    assert IsHome(w, w.lh[tail]) && IsLog(w, w.start + tail + 1);
  }

  lemma ClearAfter(w: World, w1: World, w2: World, w3: World, others: set<BufId>)
    requires Clear(w, others) && LockedAre(w3, others)
    requires AllSame(w, w1, others) && AllSame(w1, w2, others) && AllSame(w2, w3, others)
    requires w3.start == w.start && forall n :: n in w3.lh ==> n in w.lh
    ensures Clear(w3, others)
  {
    AllSameTrans(w, w1, w2, others);
    AllSameTrans(w, w2, w3, others);
    ClearStays(w, w3, others);
  }

  lemma AllSameTrans(w: World, w1: World, w2: World, bs: set<BufId>)
    requires AllSame(w, w1, bs) && AllSame(w1, w2, bs)
    ensures AllSame(w, w2, bs)
  {}

  class Log {
    var w: World
    ghost var ws: seq<World>
    ghost var ss: seq<Step>

    ghost predicate Valid()
      reads this
    {
      && Inv(w)
      && |ws| == |ss| + 1 && ws[|ss|] == w
      && forall i :: 0 <= i < |ss| ==> StepAt(ws, ss, i)
    }

    constructor (off: World)
      requires PoweredOff(off)
      ensures Valid() && w == off && ws == [off]
    {
      PoweredOffInv(off);
      w, ws, ss := off, [off], [];
    }

    /** One step of the storage stack. */
    method Take(s: Step)
      requires Valid() && Enabled(w, s)
      modifies this
      ensures Valid() && w == Next(old(w), s) && ws == old(ws) + [w] && ss == old(ss) + [s]
      ensures Abs(w) == Apply(Abs(old(w)), EventOf(old(w), s))
    {
      StepRefines(w, s);
      w := Next(w, s);
      ws, ss := ws + [w], ss + [s];
      forall i | 0 <= i < |ss| ensures StepAt(ws, ss, i) {
        if i < |ss| - 1 { assert StepAt(old(ws), old(ss), i); }
      }
    }

    /** bread: None is the "bget: no buffers" panic. */
    method Bread(n: nat, ghost held: set<BufId>) returns (r: Option<BufId>)
      requires Valid() && n < |w.disk| && LockedAre(w, held)
      requires NoneHolds(w, held, n)
      modifies this
      ensures Valid() && Kept(old(w), w) && old(ss) <= ss && Abs(w) == Abs(old(w))
      ensures r.None? <==> NoBuffer(old(w), n)
      ensures if r.None? then w == old(w) && Busy(w) else w.users == MoreUsers(old(w).users, r.value)
      ensures r.Some? ==> r.value !in held && Has(w, r.value, n) && LockedAre(w, held + {r.value})
      ensures AllSame(old(w), w, held)
    {
      r := Choose(w.cache, DEV, n);
      ChooseNone(w, n);
      if r == None { return; }
      Bget(r.value, n, held);
      if !w.cache.bufs[r.value].valid {
        FillEffect(w, r.value);
        Take(Fill(r.value));
      }
    }

    /** bget, once it has chosen buffer b. */
    method Bget(b: BufId, n: nat, ghost held: set<BufId>)
      requires Valid() && n < |w.disk| && LockedAre(w, held) && Choose(w.cache, DEV, n) == Some(b)
      requires NoneHolds(w, held, n)
      modifies this
      ensures Valid() && Kept(old(w), w) && old(ss) <= ss && Abs(w) == Abs(old(w)) && AllSame(old(w), w, held)
      ensures b !in held && Holds(w.cache.bufs[b], DEV, n) && LockedAre(w, held + {b})
      ensures w.users == MoreUsers(old(w).users, b)
    {
      LookupEffect(w, n, held);
      Take(Lookup(n));
      LockEffect(w, b, held);
      Take(Lock(b));
    }

    /** brelse */
    method Brelse(b: BufId, ghost held: set<BufId>)
      requires Valid() && LockedAre(w, held) && b in held && w.cache.bufs[b].valid && b !in w.dirty
      modifies this
      ensures Valid() && Kept(old(w), w) && old(ss) <= ss && Abs(w) == Abs(old(w))
      ensures LockedAre(w, held - {b})
      ensures AllSame(old(w), w, held - {b}) && old(w).users[b] > 0 && w.users == FewerUsers(old(w).users, b)
    {
      UnlockEffect(w, b, held);
      Take(Unlock(b));
      DropEffect(w, b, held - {b});
      Take(Drop(b));
    }

    /** write_head: store the in-memory header, erased if the log is being cleared. */
    method WriteHead(ghost others: set<BufId>) returns (ok: bool)
      requires Valid() && Clear(w, others) && (w.phase.WritingHead? || w.phase.Erasing? || w.phase.Recovered?)
      modifies this
      ensures Valid() && old(ss) <= ss && Clear(w, others) && Visible(w) == old(Visible(w))
      ensures !ok ==> Kept(old(w), w) && Abs(w) == Abs(old(w)) && Busy(w)
      ensures (Roomy(old(w)) ==> ok && Roomy(w)) && w.ops == old(w).ops
      ensures ok && old(w).phase.WritingHead? ==>
        w.phase == Installing(0) && w.lh == old(w.lh) && Durable(w) == old(Visible(w))
      ensures ok && !old(w).phase.WritingHead? ==>
        w.phase.Running? && w.lh == [] && Durable(w) == old(Durable(w))
    {
      ghost var w0 := w;
      if Roomy(w) { RoomyFinds(w, w.start); }
      var hb := Bread(w.start, others);
      if hb == None { return false; }
      var b := hb.value;
      ghost var w1 := w;
      PutHeader(b, others);
      ghost var w2 := w;
      NotDirtyHeader(w, b);
      Brelse(b, others + {b});
      assert others + {b} - {b} == others;
      UsersBack(w0.users, b);
      ClearAfter(w0, w1, w2, w, others);
      ok := true;
    }

    /** Fill the header buffer from log.lh and bwrite it. */
    method PutHeader(hb: BufId, ghost others: set<BufId>)
      requires Valid() && Has(w, hb, w.start) && hb !in others && LockedAre(w, others + {hb})
      requires w.phase.WritingHead? || w.phase.Erasing? || w.phase.Recovered?
      modifies this
      ensures Valid() && old(ss) <= ss && Visible(w) == old(Visible(w)) && w.start == old(w).start
      ensures w.users == old(w).users && w.ops == old(w).ops
      ensures Has(w, hb, w.start) && LockedAre(w, others + {hb}) && |w.lh| <= LOGBLOCKS && AllSame(old(w), w, others)
      ensures w.start < |w.disk| && w.disk[w.start] == PutHead(old(w).cache.bufs[hb].data, w.lh)
      ensures old(w).phase.WritingHead? ==>
        w.phase == Installing(0) && w.lh == old(w.lh) && Durable(w) == old(Visible(w))
      ensures !old(w).phase.WritingHead? ==>
        w.phase.Running? && w.lh == [] && Durable(w) == old(Durable(w))
    {
      var lh := if w.phase.WritingHead? then w.lh else [];
      var head := FillHead(w.cache.bufs[hb].data, lh);
      var s := if w.phase.WritingHead? then CommitHead(hb)
               else if w.phase.Erasing? then EraseHead(hb) else RecoverHead(hb);
      HeadEffect(w, s, hb, others);
      Take(s);
      assert w.disk[w.start] == head;
    }

    /** log_write: neither panic happens, and a block that is in the log already is not
        added or pinned again. */
    method LogBlock(p: Proc, b: BufId)
      requires Valid() && CanLogWrite(w, p, b)
      modifies this
      ensures Valid() && old(ss) <= ss && w == DoLogWrite(old(w), p, b) && Abs(w) == Abs(old(w))
      ensures !LogWritePanics(old(w))
      ensures forall n :: n in w.lh <==> n in old(w).lh || n == old(w).cache.bufs[b].blockno
      ensures |w.lh| == |old(w).lh| + if old(w).cache.bufs[b].blockno in old(w).lh then 0 else 1
      ensures w.cache.bufs[b].refcnt == old(w).cache.bufs[b].refcnt
          + if old(w).cache.bufs[b].blockno in old(w).lh then 0 else 1
    {
      NoLogPanic(w, p, b);
      var n := w.cache.bufs[b].blockno;
      var i := FindLogged(w.lh, n);
      var lh := if i < |w.lh| then w.lh[i := n] else w.lh + [n];
      Take(LogWrite(p, b));
      assert w.lh == lh;
    }

    /** The body of write_log's loop. */
    method CopyBlock(ghost others: set<BufId>) returns (ok: bool)
      requires Valid() && Clear(w, others) && w.phase.WritingLog?
      modifies this
      ensures Valid() && old(ss) <= ss && Abs(w) == Abs(old(w)) && w.lh == old(w.lh) && w.ops == old(w).ops
      ensures ok ==> Clear(w, others) && w.phase == Advance(old(w.phase), |w.lh|)
      ensures (!ok ==> Busy(w)) && (Roomy(old(w)) ==> ok && Roomy(w)) && (|w.lh| == NBUF ==> !ok)
    {
      ghost var w0 := w;
      FullLogStops(w, w.phase.i);
      var to, from;
      ok, to, from := ReadBoth(others, w.phase.i);
      if !ok { return; }
      ghost var w1 := w;
      CopyOut(to, from, others);
      ghost var w2 := w;
      ReleaseBoth(from, to, others);
      BothBack(w0.users, to, from);
      ClearAfter(w0, w1, w2, w, others);
    }

    /** memmove and bwrite. */
    method CopyOut(to: BufId, from: BufId, ghost others: set<BufId>)
      requires Valid() && w.phase.WritingLog?
      requires Has(w, to, w.start + w.phase.i + 1) && Has(w, from, w.lh[w.phase.i])
      requires LockedAre(w, others + {to, from}) && to !in others && from !in others
      modifies this
      ensures Valid() && old(ss) <= ss && Abs(w) == Abs(old(w)) && w.lh == old(w.lh) && w.start == old(w).start
      ensures LockedAre(w, others + {to, from}) && w.cache.bufs[to].valid && w.cache.bufs[from].valid
      ensures w.phase == Advance(old(w.phase), |w.lh|) && AllSame(old(w), w, others)
      ensures w.users == old(w).users && w.ops == old(w).ops
    {
      Take(CopyToLog(to, from));
    }

    /** The bread calls for entry tail of the log: its log block and its home block. */
    method ReadBoth(ghost others: set<BufId>, tail: nat) returns (ok: bool, lbuf: BufId, dbuf: BufId)
      requires Valid() && Clear(w, others) && tail < |w.lh| && !w.phase.Running?
      modifies this
      ensures Valid() && Kept(old(w), w) && old(ss) <= ss && Abs(w) == Abs(old(w))
      ensures ok ==> lbuf !in others && dbuf !in others && lbuf != dbuf && LockedAre(w, others + {lbuf, dbuf})
      ensures ok ==> Has(w, lbuf, w.start + tail + 1) && Has(w, dbuf, w.lh[tail]) && AllSame(old(w), w, others)
      ensures if ok then w.users == MoreUsers(MoreUsers(old(w).users, lbuf), dbuf) else Busy(w)
      ensures Roomy(old(w)) && (PinnedBlocks(old(w)) == [] || old(w).lh[tail] in PinnedBlocks(old(w))) ==> ok
      ensures NoBuffer(old(w), old(w).start + tail + 1) ==> !ok
    {
      var at, home := w.start + tail + 1, w.lh[tail];
      assert IsHome(w, home) && IsLog(w, at);
      ghost var w0 := w;
      if Roomy(w) { RoomyFinds(w, at); }
      ok, lbuf := ReadLogBlock(at, others);
      if !ok { return ok, lbuf, lbuf; }
      ghost var w1 := w;
      SecondFinds(w0, w1, lbuf, home);
      NobodyElse(w0, w1, others, lbuf, tail);
      ok, dbuf := ReadHome(home, lbuf, others);
      AllSameTrans(w0, w1, w, others);
    }

    /** The first of them. */
    method ReadLogBlock(n: nat, ghost others: set<BufId>) returns (ok: bool, lbuf: BufId)
      requires Valid() && Clear(w, others) && IsLog(w, n) && n < |w.disk|
      modifies this
      ensures Valid() && Kept(old(w), w) && old(ss) <= ss && Abs(w) == Abs(old(w)) && AllSame(old(w), w, others)
      ensures ok <==> !NoBuffer(old(w), n)
      ensures ok ==> lbuf !in others && Has(w, lbuf, n) && LockedAre(w, others + {lbuf})
      ensures if ok then w.users == MoreUsers(old(w).users, lbuf) else Busy(w)
    {
      var l := Bread(n, others);
      if l == None { return false, 0; }
      return true, l.value;
    }

    /** The second of them. */
    method ReadHome(n: nat, lbuf: BufId, ghost others: set<BufId>) returns (ok: bool, dbuf: BufId)
      requires Valid() && n < |w.disk| && LockedAre(w, others + {lbuf}) && lbuf !in others && w.cache.bufs[lbuf].valid
      requires NoneHolds(w, others + {lbuf}, n)
      modifies this
      ensures Valid() && Kept(old(w), w) && old(ss) <= ss && Abs(w) == Abs(old(w))
      ensures ok <==> !NoBuffer(old(w), n)
      ensures ok ==> dbuf !in others && lbuf != dbuf && LockedAre(w, others + {lbuf, dbuf}) && Has(w, dbuf, n)
      ensures AllSame(old(w), w, others) && SameContents(old(w), w, lbuf)
      ensures if ok then w.users == MoreUsers(old(w).users, dbuf) else Busy(w)
    {
      var d := Bread(n, others + {lbuf});
      if d == None { return false, lbuf; }
      assert others + {lbuf} + {d.value} == others + {lbuf, d.value};
      return true, d.value;
    }

    method ReleaseBoth(b: BufId, b': BufId, ghost others: set<BufId>)
      requires Valid() && !w.phase.Running? && LockedAre(w, others + {b, b'}) && b != b'
      requires w.cache.bufs[b].valid && w.cache.bufs[b'].valid && b !in others && b' !in others
      modifies this
      ensures Valid() && Kept(old(w), w) && old(ss) <= ss && Abs(w) == Abs(old(w))
      ensures LockedAre(w, others) && AllSame(old(w), w, others)
      ensures old(w).users[b] > 0 && old(w).users[b'] > 0 && w.users == FewerUsers(FewerUsers(old(w).users, b), b')
    {
      NotDirtyHeader(w, b);
      NotDirtyHeader(w, b');
      Brelse(b, others + {b, b'});
      assert others + {b, b'} - {b} == others + {b'};
      Brelse(b', others + {b'});
      assert others + {b'} - {b'} == others;
    }

    /** write_log */
    method WriteLog(ghost others: set<BufId>) returns (ok: bool)
      requires Valid() && Clear(w, others) && w.phase == WritingLog(0)
      modifies this
      ensures Valid() && old(ss) <= ss && Abs(w) == Abs(old(w)) && w.lh == old(w.lh) && w.ops == old(w).ops
      ensures ok ==> Clear(w, others) && w.phase.WritingHead?
      ensures (!ok ==> Busy(w)) && (Roomy(old(w)) ==> ok && Roomy(w)) && (|w.lh| == NBUF ==> !ok)
    {
      var tail := 0;
      while tail < |w.lh|
        invariant Valid() && old(ss) <= ss && Abs(w) == Abs(old(w)) && w.lh == old(w.lh) && Clear(w, others)
        invariant 0 <= tail <= |w.lh| && w.ops == old(w).ops && (Roomy(old(w)) ==> Roomy(w))
        invariant tail > 0 ==> |w.lh| != NBUF
        invariant w.phase == if tail < |w.lh| then WritingLog(tail) else WritingHead
        decreases |w.lh| - tail
      {
        ok := CopyBlock(others);
        if !ok { return; }
        tail := tail + 1;
      }
      ok := true;
    }

    /** The body of install_trans's loop. */
    method InstallBlock(ghost others: set<BufId>) returns (ok: bool)
      requires Valid() && Clear(w, others) && (w.phase.Installing? || w.phase.Recovering?)
      modifies this
      ensures Valid() && old(ss) <= ss && Abs(w) == Abs(old(w)) && w.lh == old(w.lh) && w.ops == old(w).ops
      ensures ok ==> Clear(w, others) && w.phase == Advance(old(w.phase), |w.lh|)
      ensures (!ok ==> Busy(w)) && (Roomy(old(w)) ==> ok && Roomy(w))
    {
      ghost var w0 := w;
      assert w.phase.Installing? ==> w.lh[w.phase.i..][0] == w.lh[w.phase.i];
      var lbuf, dbuf;
      ok, lbuf, dbuf := ReadBoth(others, w.phase.i);
      if !ok { return; }
      ghost var w1 := w;
      CopyHome(lbuf, dbuf, others);
      ghost var w2 := w;
      ReleaseBoth(lbuf, dbuf, others);
      BothBack(w0.users, lbuf, dbuf);
      ClearAfter(w0, w1, w2, w, others);
    }

    /** memmove, bwrite and, outside recovery, bunpin. */
    method CopyHome(lbuf: BufId, dbuf: BufId, ghost others: set<BufId>)
      requires Valid() && (w.phase.Installing? || w.phase.Recovering?)
      requires Has(w, lbuf, w.start + 1 + w.phase.i) && Has(w, dbuf, w.lh[w.phase.i])
      requires LockedAre(w, others + {lbuf, dbuf}) && lbuf !in others && dbuf !in others
      modifies this
      ensures Valid() && old(ss) <= ss && Abs(w) == Abs(old(w)) && w.lh == old(w.lh) && w.start == old(w).start
      ensures LockedAre(w, others + {lbuf, dbuf}) && w.cache.bufs[lbuf].valid && w.cache.bufs[dbuf].valid
      ensures w.phase == Advance(old(w.phase), |w.lh|) && AllSame(old(w), w, others)
      ensures w.users == old(w).users && w.ops == old(w).ops
    {
      MayInstall(w, lbuf, dbuf);
      InstallEffect(w, lbuf, dbuf, others);
      if w.phase.Recovering? {
        Take(Recover(lbuf, dbuf));
      } else {
        Take(Install(lbuf, dbuf));
      }
    }

    /** install_trans */
    method InstallTrans(recovering: bool, ghost others: set<BufId>) returns (ok: bool)
      requires Valid() && Clear(w, others) && w.lh != []
      requires w.phase == if recovering then Recovering(0) else Installing(0)
      modifies this
      ensures Valid() && old(ss) <= ss && Abs(w) == Abs(old(w)) && w.lh == old(w.lh) && w.ops == old(w).ops
      ensures ok ==> Clear(w, others) && w.phase == if recovering then Recovered else Erasing
      ensures (!ok ==> Busy(w)) && (Roomy(old(w)) ==> ok && Roomy(w))
    {
      var tail := 0;
      while tail < |w.lh|
        invariant Valid() && old(ss) <= ss && Abs(w) == Abs(old(w)) && w.lh == old(w.lh) && Clear(w, others)
        invariant 0 <= tail <= |w.lh| && w.ops == old(w).ops && (Roomy(old(w)) ==> Roomy(w))
        invariant tail < |w.lh| ==> w.phase == if recovering then Recovering(tail) else Installing(tail)
        invariant tail == |w.lh| ==> w.phase == if recovering then Recovered else Erasing
        decreases |w.lh| - tail
      {
        ok := InstallBlock(others);
        if !ok { return; }
        tail := tail + 1;
      }
      ok := true;
    }

    /** read_head */
    method ReadHeader() returns (ok: bool)
      requires Valid() && Unlocked(w) && w.phase.Booting?
      modifies this
      ensures Valid() && old(ss) <= ss && Abs(w) == Abs(old(w))
      ensures ok ==> Unlocked(w) && w.phase == if w.lh == [] then Recovered else Recovering(0)
      ensures !ok ==> w.phase.Booting? && Busy(w)
      ensures NoUsers(old(w)) ==> ok && Roomy(w)
    {
      ghost var users0 := w.users;
      if NoUsers(w) { RoomyFinds(w, w.start); }
      assert LockedAre(w, {});
      var hb := Bread(w.start, {});
      if hb == None { return false; }
      CleanBuffer(w, hb.value, w.start);
      var lh := LoadHead(w.cache.bufs[hb.value].data);
      Take(ReadHead(hb.value));
      assert w.lh == lh;
      NotDirtyHeader(w, hb.value);
      Brelse(hb.value, {hb.value});
      UsersBack(users0, hb.value);
      ok := true;
    }

    /** commit, for a log that is not empty: when it completes, everything that
        was visible is durable and on the disk at its home; if it stops early,
        either everything or nothing of it is durable. */
    method Commit(ghost others: set<BufId>) returns (ok: bool)
      requires Valid() && Clear(w, others) && w.phase == WritingLog(0)
      modifies this
      ensures Valid() && old(ss) <= ss && Visible(w) == old(Visible(w))
      ensures Durable(w) == old(Durable(w)) || Durable(w) == old(Visible(w))
      ensures ok ==> Clear(w, others) && w.phase.Running? && w.lh == [] && Durable(w) == old(Visible(w))
      ensures ok ==> forall n: nat :: IsHome(w, n) ==> w.disk[n] == old(Visible(w))[n]
      // it stops early only for want of a buffer; with nobody else using one, exactly when the log pins them all
      ensures (!ok ==> Busy(w)) && w.ops == old(w).ops
      ensures NoUsers(old(w)) ==> (ok <==> |old(w).lh| < NBUF)
    {
      ok := WriteLog(others);
      if !ok { return; }
      ok := WriteHead(others);  // from here on the transaction survives a crash
      if !ok { return; }
      ok := InstallTrans(false, others);
      if !ok { return; }
      ok := WriteHead(others);  // and now the log is empty again
      if !ok { return; }
      ErasedLog(w);
    }

    /** end_op: the last operation to end commits, and then everything visible is durable. */
    method EndOperation(p: Proc, ghost others: set<BufId>) returns (ok: bool)
      requires Valid() && Clear(w, others) && CanEndOp(w, p)
      modifies this
      ensures Valid() && old(ss) <= ss && Visible(w) == old(Visible(w)) && w.ops == old(w).ops[p := Out]
      ensures !ok ==> OnlyOne(old(w), p) && Busy(w)
      ensures NoUsers(old(w)) ==> (ok <==> !OnlyOne(old(w), p) || |old(w).lh| < NBUF)
      ensures ok ==> Clear(w, others) && w.phase.Running?
      ensures ok ==> Durable(w) == if OnlyOne(old(w), p) then old(Visible(w)) else old(Durable(w))
      ensures ok && OnlyOne(old(w), p) ==> w.lh == [] && forall q: Proc :: CanBeginOp(w, q)
    {
      ghost var w0 := w;
      EndOpCommits(w, p);
      Take(EndOp(p));
      ClearStays(w0, w, others);
      if w.phase.Running? {
        if OnlyOne(w0, p) { AllDurable(w); }
        return true;
      }
      ok := Commit(others);
      if ok { AllDurable(w); }
    }

    /** recover_from_log: afterwards the disk holds at every home block what was
        durable, and that is what is visible. */
    method RecoverFromLog() returns (ok: bool)
      requires Valid() && Unlocked(w) && w.phase.Booting?
      modifies this
      ensures Valid() && old(ss) <= ss && Durable(w) == old(Durable(w)) && Visible(w) == old(Durable(w))
      ensures ok ==> w.phase.Running? && w.lh == []
      ensures ok ==> forall n: nat :: IsHome(w, n) ==> w.disk[n] == old(Durable(w))[n]
      ensures (!ok ==> Busy(w)) && (NoUsers(old(w)) ==> ok)
    {
      RecoveryVisible(w);
      ok := ReadHeader();
      if !ok { return; }
      if w.lh != [] {
        ok := InstallTrans(true, {});
        if !ok { return; }
      }
      ok := WriteHead({});
      if !ok { return; }
      ErasedLog(w);
    }
  }

  lemma LookupEffect(w: World, n: nat, held: set<BufId>)
    requires Inv(w) && CanLookup(w, n) && LockedAre(w, held)
    requires forall b :: b in held ==> !Holds(w.cache.bufs[b], DEV, n)
    ensures var b, w' := Choose(w.cache, DEV, n).value, DoLookup(w, n);
      && b !in held && Holds(w'.cache.bufs[b], DEV, n) && w'.users[b] > 0 && LockedAre(w', held)
      && w'.cache.bufs == w.cache.bufs[b := w'.cache.bufs[b]] && Kept(w, w')
  {
    var b := Choose(w.cache, DEV, n).value;
    assert BufferOk(w, b);
  }

  lemma LockEffect(w: World, b: BufId, held: set<BufId>)
    requires LockedAre(w, held)
    ensures LockedAre(DoLock(w, b), held + {b}) && Kept(w, DoLock(w, b))
    ensures DoLock(w, b).cache.bufs == w.cache.bufs[b := DoLock(w, b).cache.bufs[b]]
  {}

  lemma UnlockEffect(w: World, b: BufId, held: set<BufId>)
    requires Inv(w) && LockedAre(w, held) && b in held && w.cache.bufs[b].valid && b !in w.dirty
    ensures CanUnlock(w, b) && var w' := DoUnlock(w, b);
      && LockedAre(w', held - {b}) && Kept(w, w') && AllSame(w, w', held - {b}) && w'.users == w.users && w.users[b] > 0
  {
    assert BufferOk(w, b);
  }

  lemma DropEffect(w: World, b: BufId, held: set<BufId>)
    requires Inv(w) && LockedAre(w, held) && b !in held && w.users[b] > 0
    ensures CanDrop(w, b) && var w' := DoDrop(w, b);
      && LockedAre(w', held) && Kept(w, w') && AllSame(w, w', held) && w'.users == FewerUsers(w.users, b)
  {
    assert BufferOk(w, b);
    var k := Position(w.cache.order, b);
  }

  lemma FillEffect(w: World, b: BufId)
    requires Inv(w) && w.cache.bufs[b].locked && !w.cache.bufs[b].valid
    ensures CanFill(w, b) && Kept(w, DoFill(w, b))
    ensures DoFill(w, b).cache.bufs == w.cache.bufs[b := DoFill(w, b).cache.bufs[b]]
  {
    assert BufferOk(w, b);
  }

  lemma MayInstall(w: World, lbuf: BufId, dbuf: BufId)
    requires Inv(w) && (w.phase.Installing? || w.phase.Recovering?)
    requires Has(w, lbuf, w.start + 1 + w.phase.i) && Has(w, dbuf, w.lh[w.phase.i])
    ensures if w.phase.Installing? then CanInstall(w, lbuf, dbuf) else CanRecover(w, lbuf, dbuf)
  {
    assert BufferOk(w, dbuf);
  }

  lemma InstallEffect(w: World, lbuf: BufId, dbuf: BufId, others: set<BufId>)
    requires dbuf !in others
    ensures CanInstall(w, lbuf, dbuf) ==>
      SameLocks(w, DoInstall(w, lbuf, dbuf)) && AllSame(w, DoInstall(w, lbuf, dbuf), others)
    ensures CanRecover(w, lbuf, dbuf) ==>
      SameLocks(w, DoRecover(w, lbuf, dbuf)) && AllSame(w, DoRecover(w, lbuf, dbuf), others)
  {}

  /** Which buffers are locked and which are valid stays. */
  ghost predicate SameLocks(w: World, w': World) {
    forall b: BufId ::
      w'.cache.bufs[b].locked == w.cache.bufs[b].locked && w'.cache.bufs[b].valid == w.cache.bufs[b].valid
  }

  /** Outside operations nothing is dirty; a header buffer never is. */
  lemma NotDirtyHeader(w: World, b: BufId)
    requires Inv(w) && (!w.phase.Running? || IsLog(w, w.cache.bufs[b].blockno))
    ensures b !in w.dirty
  {
    assert BufferOk(w, b);
  }

  /** With an empty log header the disk itself holds what is durable. */
  lemma ErasedLog(w: World)
    requires Inv(w) && w.phase.Running?
    ensures forall n: nat :: IsHome(w, n) ==> w.disk[n] == Durable(w)[n]
  {
    forall n: nat | IsHome(w, n) ensures w.disk[n] == Durable(w)[n] {
      assert Durable(w)[n] == DurableAt(w, n);
    }
  }
}
