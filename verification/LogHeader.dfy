/** The log header block (struct logheader in kernel/log.c): a count followed by
    the home block numbers of the logged blocks. */
module LogHeader {
  import opened Blocks

  const MAXOPBLOCKS := 10
  const LOGBLOCKS := 30  // MAXOPBLOCKS * 3

  /** The count in a header block is within the table. */
  predicate HeadOk(b: Block) {
    GetWord(b, 0) <= LOGBLOCKS
  }

  /** read_head */
  function Head(b: Block): (lh: seq<Word>)
    requires HeadOk(b)
  {
    Entries(b, GetWord(b, 0))
  }

  function Entries(b: Block, n: nat): (lh: seq<Word>)
    requires n <= LOGBLOCKS
    ensures |lh| == n && forall i :: 0 <= i < n ==> lh[i] == GetWord(b, 1 + i)
  {
    if n == 0 then [] else Entries(b, n - 1) + [GetWord(b, n)]
  }

  /** write_head: the count, then the entries; stale entries stay behind. */
  function PutHead(b: Block, lh: seq<Word>): (r: Block)
    requires |lh| <= LOGBLOCKS
  {
    PutEntries(PutWord(b, 0, |lh|), lh, |lh|)
  }

  function PutEntries(b: Block, lh: seq<Word>, n: nat): (r: Block)
    requires n <= |lh| <= LOGBLOCKS
  {
    if n == 0 then b else PutWord(PutEntries(b, lh, n - 1), n, lh[n - 1])
  }

  lemma {:induction false} PutEntriesWord(b: Block, lh: seq<Word>, n: nat, i: nat)
    requires n <= |lh| <= LOGBLOCKS && i < WORDS
    ensures GetWord(PutEntries(b, lh, n), i) == if 0 < i <= n then lh[i - 1] else GetWord(b, i)
  {
    if n > 0 {
      PutEntriesWord(b, lh, n - 1, i);
      GetPut(PutEntries(b, lh, n - 1), n, lh[n - 1], i);
    }
  }

  /** Whatever the header block held before, what write_head stores is what
      read_head finds. */
  lemma HeadRoundTrip(b: Block, lh: seq<Word>)
    requires |lh| <= LOGBLOCKS
    ensures HeadOk(PutHead(b, lh)) && Head(PutHead(b, lh)) == lh
  {
    var b' := PutWord(b, 0, |lh|);
    GetPut(b, 0, |lh|, 0);
    PutEntriesWord(b', lh, |lh|, 0);
    forall i | 0 <= i < |lh| ensures GetWord(PutHead(b, lh), 1 + i) == lh[i] {
      PutEntriesWord(b', lh, |lh|, 1 + i);
    }
  }
}
