/** `WriteChunk`: scatters a download stream over the files of a chunk (src/transfer/chunk_manager.go). */
module ChunkWriting {
  import opened Names
  import opened Planning
  import opened Storing

  /** The remaining-range counters of the files, and the files whose callback has run, in order. */
  datatype Tally = Tally(remaining: seq<int>, completed: seq<nat>)

  /** One range of `file` is stored: decrement its counter and call back when it reaches zero. */
  function FinishRange(t: Tally, file: nat): (r: Tally)
    ensures |r.remaining| == |t.remaining|
  {
    if file >= |t.remaining| then t
    else
      var left := t.remaining[file] - 1;
      Tally(t.remaining[file := left], if left == 0 then t.completed + [file] else t.completed)
  }

  function FinishRanges(t: Tally, ranges: seq<FileRange>): (r: Tally)
    ensures |r.remaining| == |t.remaining|
  {
    if ranges == [] then t
    else FinishRange(FinishRanges(t, ranges[..|ranges| - 1]), ranges[|ranges| - 1].fileIndex)
  }

  /** How many leading ranges of the chunk `n` bytes fill. */
  function RangesFilled(c: Chunk, n: int): (k: nat)
    ensures k <= |c|
    decreases |c|
  {
    if c == [] || n < |RangeAddrs(c[0])| then 0 else 1 + RangesFilled(c[1..], n - |RangeAddrs(c[0])|)
  }

  /** `k` ranges are filled and no more: this determines `RangesFilled`. */
  lemma {:induction false} FilledIs(c: Chunk, n: int, k: nat)
    requires k <= |c| && |ChunkAddrs(c[..k])| <= n
    requires k < |c| ==> n < |ChunkAddrs(c[..k])| + |RangeAddrs(c[k])|
    ensures RangesFilled(c, n) == k
    decreases k
  {
    if k > 0 {
      assert c[..k][0] == c[0] && c[..k][1..] == c[1..][..k - 1];
      assert k < |c| ==> c[1..][k - 1] == c[k];
      FilledIs(c[1..], n - |RangeAddrs(c[0])|, k - 1);
    }
  }

  lemma NextRange(c: Chunk, k: nat)
    requires k < |c|
    ensures ChunkAddrs(c[..k + 1]) == ChunkAddrs(c[..k]) + RangeAddrs(c[k])
    ensures |ChunkAddrs(c[..k + 1])| <= |ChunkAddrs(c)|
    ensures ChunkAddrs(c[..k + 1]) <= ChunkAddrs(c)
  {
    hide ChunkAddrs;
    assert c[..k + 1] == c[..k] + [c[k]];
    AppendRange(c[..k], c[k]);
    assert c == c[..k + 1] + c[k + 1..];
    ChunkAddrsAppend(c[..k + 1], c[k + 1..]);
  }

  /** The checksum test at the end of `WriteChunk`: an expected value of 0 means "do not check". */
  predicate Accepted(hash: seq<byte> -> nat, expected: nat, got: seq<byte>) {
    expected == 0 || hash(got) == expected
  }

  ghost predicate CollisionFree(hash: seq<byte> -> nat) {
    forall a, b | hash(a) == hash(b) :: a == b
  }

  /** Verification against the source's digest lets only the source's bytes through, whatever
      arrives, exactly when that digest is not 0: a digest of 0 switches the test off. */
  lemma VerificationIsSoundIff(hash: seq<byte> -> nat, source: seq<byte>)
    requires CollisionFree(hash) && source != []
    ensures (forall got | |got| == |source| && Accepted(hash, hash(source), got) :: got == source)
       <==> hash(source) != 0
  {
    if hash(source) == 0 {
      var other := [if source[0] == 0 then 1 else 0] + source[1..];
      assert |other| == |source| && Accepted(hash, hash(source), other) && other[0] != source[0];
    }
  }

  class ChunkManager {
    const plan: seq<Chunk>
    const hash: seq<byte> -> nat
    var tally: Tally

    ghost predicate Valid()
      reads this
    {
      forall c, j | 0 <= c < |plan| && 0 <= j < |plan[c]| ::
        && plan[c][j].fileIndex < |tally.remaining|
        && plan[c][j].startOffset < plan[c][j].endOffset
    }

    constructor (plan: seq<Chunk>, hash: seq<byte> -> nat, remaining: seq<int>)
      requires forall c, j | 0 <= c < |plan| && 0 <= j < |plan[c]| ::
                 plan[c][j].fileIndex < |remaining| && plan[c][j].startOffset < plan[c][j].endOffset
      ensures Valid() && this.plan == plan && this.hash == hash && tally == Tally(remaining, [])
    {
      this.plan, this.hash, this.tally := plan, hash, Tally(remaining, []);
    }

    /** The bytes that arrived are stored at the chunk's addresses in order, and nothing else is; every
        range they fill is counted; the call succeeds if and only if they are enough and pass the test. */
    method WriteChunk(storage: Storage, chunkIndex: nat, reader: Stream, expectedChecksum: nat)
      returns (length: int, ok: bool)
      requires Valid() && chunkIndex < |plan|
      modifies this, storage, reader
      ensures Valid()
      ensures var c, arrived := plan[chunkIndex], old(reader.rest);
              var n := Arriving(c, arrived);
              && Scattered(c, n, arrived, old(storage.bytes), storage.bytes, old(tally), tally)
              && reader.rest == arrived[n..]
              && ok == (n == |ChunkAddrs(c)| && Accepted(hash, expectedChecksum, arrived[..n]))
              && length == if ok then n else 0
    {
      var c := plan[chunkIndex];
      ghost var arrived, start, before := reader.rest, storage.bytes, tally;
      var hashed := [];
      length := 0;
      var k := 0;
      NothingScattered(c, arrived, start, before);
      hide ChunkAddrs, RangesFilled, FinishRange, Accepted, Scattered, Arriving, Put;
      while k < |c|
        invariant 0 <= k <= |c| && Valid()
        invariant length == |ChunkAddrs(c[..k])| <= |arrived|
        invariant reader.rest == arrived[length..] && hashed == arrived[..length]
        invariant length <= |ChunkAddrs(c)|
        invariant Scattered(c, length, arrived, start, storage.bytes, before, tally)
      {
        ghost var bytes := storage.bytes;
        var incoming := reader.rest;
        var n, written := storage.Write(c[k], reader);
        MoreScattered(c, k, n, arrived, start, bytes, before, tally);
        TakeMore(arrived, length, n);
        hashed := hashed + incoming[..n];
        if !written {
          return 0, false;
        }
        length := length + n;
        tally := FinishRange(tally, c[k].fileIndex);
        k := k + 1;
      }
      assert c[..k] == c;
      AllScattered(c, arrived);
      ok := Accepted(hash, expectedChecksum, hashed);
      if !ok {
        length := 0;
      }
    }
  }

  /** How many bytes of the stream belong to the chunk. */
  function Arriving(c: Chunk, arrived: seq<byte>): nat {
    if |arrived| < |ChunkAddrs(c)| then |arrived| else |ChunkAddrs(c)|
  }

  /** The first `n` bytes of the stream lie at the chunk's first `n` addresses, the rest is untouched,
      and the ranges that these bytes fill have been counted. */
  ghost predicate Scattered(c: Chunk, n: nat, arrived: seq<byte>, from: Store, to: Store, before: Tally, after: Tally) {
    && n <= |ChunkAddrs(c)| && n <= |arrived|
    && to == Put(from, ChunkAddrs(c)[..n], arrived[..n])
    && after == FinishRanges(before, c[..RangesFilled(c, n)])
  }

  lemma NothingScattered(c: Chunk, arrived: seq<byte>, store: Store, t: Tally)
    requires forall j | 0 <= j < |c| :: c[j].startOffset < c[j].endOffset
    ensures Scattered(c, 0, arrived, store, store, t, t)
    ensures |ChunkAddrs(c[..0])| == 0
  {
    FilledIs(c, 0, 0);
  }

  /** After `k` whole ranges and `n` bytes of the next one. */
  lemma FilledNext(c: Chunk, k: nat, n: nat)
    requires k < |c| && n <= |RangeAddrs(c[k])|
    requires forall j | 0 <= j < |c| :: |RangeAddrs(c[j])| > 0
    ensures RangesFilled(c, |ChunkAddrs(c[..k])|) == k
    ensures RangesFilled(c, |ChunkAddrs(c[..k])| + n) == if n < |RangeAddrs(c[k])| then k else k + 1
  {
    hide ChunkAddrs, RangesFilled, RangeAddrs;
    NextRange(c, k);
    FilledIs(c, |ChunkAddrs(c[..k])|, k);
    if n < |RangeAddrs(c[k])| {
      FilledIs(c, |ChunkAddrs(c[..k])| + n, k);
    } else {
      if k + 1 < |c| { NextRange(c, k + 1); }
      FilledIs(c, |ChunkAddrs(c[..k + 1])|, k + 1);
    }
  }

  lemma MoreScattered(c: Chunk, k: nat, n: nat, arrived: seq<byte>, from: Store, to: Store, before: Tally, after: Tally)
    requires k < |c| && n <= |RangeAddrs(c[k])| && |ChunkAddrs(c[..k])| + n <= |arrived|
    requires forall j | 0 <= j < |c| :: c[j].startOffset < c[j].endOffset
    requires var taken := |ChunkAddrs(c[..k])|; Scattered(c, taken, arrived, from, to, before, after)
    ensures var taken := |ChunkAddrs(c[..k])|;
            var bytes := Put(to, RangeAddrs(c[k])[..n], arrived[taken..][..n]);
            if n < |RangeAddrs(c[k])| then Scattered(c, taken + n, arrived, from, bytes, before, after)
            else Scattered(c, taken + n, arrived, from, bytes, before, FinishRange(after, c[k].fileIndex))
    ensures |ChunkAddrs(c[..k])| + |RangeAddrs(c[k])| == |ChunkAddrs(c[..k + 1])| <= |ChunkAddrs(c)|
    ensures |arrived| == |ChunkAddrs(c[..k])| + n < |ChunkAddrs(c[..k + 1])| ==> Arriving(c, arrived) == |arrived|
  {
    hide Put, ChunkAddrs, FinishRange, FinishRanges, RangesFilled;
    NextRange(c, k);
    FilledNext(c, k, n);
    WriteStep(from, to, c, k, arrived, |ChunkAddrs(c[..k])|, n);
    FinishStep(before, c, k);
  }

  lemma TakeMore<T>(s: seq<T>, from: nat, n: nat)
    requires from + n <= |s|
    ensures s[from..][n..] == s[from + n..] && s[..from] + s[from..][..n] == s[..from + n]
  {
  }

  lemma AllScattered(c: Chunk, arrived: seq<byte>)
    requires |ChunkAddrs(c)| <= |arrived|
    ensures Arriving(c, arrived) == |ChunkAddrs(c)|
  {
  }

  lemma FinishStep(t: Tally, c: Chunk, k: nat)
    requires k < |c|
    ensures FinishRanges(t, c[..k + 1]) == FinishRange(FinishRanges(t, c[..k]), c[k].fileIndex)
  {
    assert c[..k + 1][..k] == c[..k];
  }

  lemma WriteStep(start: Store, before: Store, c: Chunk, k: nat, arrived: seq<byte>, taken: nat, n: nat)
    requires k < |c| && taken == |ChunkAddrs(c[..k])| && taken + n <= |arrived| && n <= |RangeAddrs(c[k])|
    requires taken <= |ChunkAddrs(c)| && before == Put(start, ChunkAddrs(c)[..taken], arrived[..taken])
    ensures taken + n <= |ChunkAddrs(c)|
    ensures Put(before, RangeAddrs(c[k])[..n], arrived[taken..][..n])
         == Put(start, ChunkAddrs(c)[..taken + n], arrived[..taken + n])
  {
    NextRange(c, k);
    var at := ChunkAddrs(c);
    assert ChunkAddrs(c[..k + 1]) == at[..|ChunkAddrs(c[..k + 1])|];
    hide Put, ChunkAddrs;
    PutAppend(start, at[..taken], arrived[..taken], RangeAddrs(c[k])[..n], arrived[taken..][..n]);
    assert at[..taken] + RangeAddrs(c[k])[..n] == at[..taken + n];
    assert arrived[..taken] + arrived[taken..][..n] == arrived[..taken + n];
  }
}
