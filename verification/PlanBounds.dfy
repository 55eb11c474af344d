/** How many chunks and ranges a greedy plan has. */
module PlanBounds {
  import opened Planning
  import opened Plans

  // Chunk count --------------------------------------------------------------

  function FilesOf(c: Chunk): set<nat> {
    set r | r in c :: r.fileIndex
  }

  /** The files in the chunks that the file cap closed before they were full. */
  function ShortFiles(chunkSize: int, plan: seq<Chunk>): set<nat> {
    if plan == [] then {}
    else (if |ChunkAddrs(plan[0])| < chunkSize then FilesOf(plan[0]) else {}) + ShortFiles(chunkSize, plan[1..])
  }

  function FullChunks(chunkSize: int, plan: seq<Chunk>): nat {
    if plan == [] then 0
    else (if |ChunkAddrs(plan[0])| < chunkSize then 0 else 1) + FullChunks(chunkSize, plan[1..])
  }

  lemma {:induction false} AscendingFiles(c: Chunk)
    requires Ascending(c)
    ensures |FilesOf(c)| == |c|
  {
    if c != [] {
      var front, last := c[..|c| - 1], c[|c| - 1];
      AscendingFiles(front);
      assert c == front + [last];
      assert FilesOf(c) == FilesOf(front) + {last.fileIndex};
      assert last.fileIndex !in FilesOf(front);
    }
  }

  lemma {:induction false} RangeInChunk(c: Chunk, r: FileRange, a: Addr)
    requires r in c && a in RangeAddrs(r)
    ensures a in ChunkAddrs(c)
  {
    if c[0] != r {
      RangeInChunk(c[1..], r, a);
    }
  }

  /** In a chunk that is not full the last byte of every file it mentions is present. */
  lemma ShortChunkEndsFiles(sizes: seq<int>, chunkSize: int, maxFiles: int, c: Chunk, f: nat)
    requires WellPacked(sizes, chunkSize, maxFiles, c) && |ChunkAddrs(c)| < chunkSize && f in FilesOf(c)
    ensures f < |sizes| && Addr(f, sizes[f] - 1) in ChunkAddrs(c)
  {
    var r :| r in c && r.fileIndex == f;
    var j :| 0 <= j < |c| && c[j] == r;
    assert Inside(sizes, c[j]) && EndsItsFile(sizes, c[j]);
    assert RangeAddrs(r)[|RangeAddrs(r)| - 1] == Addr(f, sizes[f] - 1);
    RangeInChunk(c, r, Addr(f, sizes[f] - 1));
  }

  lemma {:induction false} FullChunksFit(chunkSize: int, plan: seq<Chunk>)
    ensures FullChunks(chunkSize, plan) * chunkSize <= |PlanAddrs(plan)|
  {
    if plan != [] {
      FullChunksFit(chunkSize, plan[1..]);
      TimesNext(FullChunks(chunkSize, plan[1..]), chunkSize);
    }
  }

  lemma FirstShort(sizes: seq<int>, chunkSize: int, maxFiles: int, plan: seq<Chunk>)
    requires plan != [] && AllClosed(sizes, chunkSize, maxFiles, true, plan) && |ChunkAddrs(plan[0])| < chunkSize
    ensures |FilesOf(plan[0])| == |plan[0]| == maxFiles
    ensures forall f | f in FilesOf(plan[0]) :: f < |sizes| && Addr(f, sizes[f] - 1) in ChunkAddrs(plan[0])
  {
    assert WellPacked(sizes, chunkSize, maxFiles, plan[0]) && Closed(chunkSize, maxFiles, plan[0]);
    AscendingFiles(plan[0]);
    forall f | f in FilesOf(plan[0])
      ensures f < |sizes| && Addr(f, sizes[f] - 1) in ChunkAddrs(plan[0])
    {
      ShortChunkEndsFiles(sizes, chunkSize, maxFiles, plan[0], f);
    }
  }

  lemma {:induction false} ShortChunksEndFiles(sizes: seq<int>, chunkSize: int, maxFiles: int, plan: seq<Chunk>)
    requires AllClosed(sizes, chunkSize, maxFiles, true, plan) && NoDuplicates(PlanAddrs(plan))
    ensures (|plan| - FullChunks(chunkSize, plan)) * maxFiles == |ShortFiles(chunkSize, plan)|
    ensures forall f | f in ShortFiles(chunkSize, plan) ::
              f < |sizes| && Addr(f, sizes[f] - 1) in PlanAddrs(plan)
  {
    if plan != [] {
      SplitDuplicates(ChunkAddrs(plan[0]), PlanAddrs(plan[1..]));
      hide NoDuplicates, ChunkAddrs, WellPacked, Closed, FilesOf;
      ShortChunksEndFiles(sizes, chunkSize, maxFiles, plan[1..]);
      TimesNext(|plan[1..]| - FullChunks(chunkSize, plan[1..]), maxFiles);
      if |ChunkAddrs(plan[0])| < chunkSize {
        FirstShort(sizes, chunkSize, maxFiles, plan);
        assert FilesOf(plan[0]) !! ShortFiles(chunkSize, plan[1..]);
      }
    }
  }

  lemma {:induction false} AtMostQuotient(q: int, d: int, total: int)
    requires d >= 1 && q * d <= total
    ensures q <= total / d
  {
    assert total < total / d * d + d;
    TimesNext(total / d, d);
    if q > total / d {
      TimesMonotone(total / d + 1, q, d);
    }
  }

  lemma ClosedChunkBound(sizes: seq<int>, chunkSize: int, maxFiles: int, plan: seq<Chunk>, total: nat)
    requires AllClosed(sizes, chunkSize, maxFiles, true, plan) && chunkSize >= 1 && maxFiles >= 1
    requires NoDuplicates(PlanAddrs(plan)) && |PlanAddrs(plan)| <= total
    ensures |plan| <= total / chunkSize + |sizes| / maxFiles
  {
    hide *;
    FullChunksFit(chunkSize, plan);
    ShortChunksEndFiles(sizes, chunkSize, maxFiles, plan);
    FiniteBelow(ShortFiles(chunkSize, plan), |sizes|);
    var full := FullChunks(chunkSize, plan);
    AtMostQuotient(full, chunkSize, total);
    AtMostQuotient(|plan| - full, maxFiles, |sizes|);
  }

  lemma FrontOfPlan(sizes: seq<int>, chunkSize: int, maxFiles: int, plan: seq<Chunk>)
    requires GreedyPlan(sizes, chunkSize, maxFiles, plan) && plan != []
    ensures AllClosed(sizes, chunkSize, maxFiles, true, plan[..|plan| - 1])
    ensures NoDuplicates(PlanAddrs(plan[..|plan| - 1]))
    ensures |PlanAddrs(plan[..|plan| - 1])| <= |FileAddrs(sizes, |sizes|)|
  {
    var front, last := plan[..|plan| - 1], plan[|plan| - 1];
    assert AllClosed(sizes, chunkSize, maxFiles, true, front);
    hide ChunkAddrs, PlanAddrs, FileAddrs, NoDuplicates, WellPacked, Closed;
    assert plan == front + [last];
    PlanAddrsAppend(front, [last]);
    FileAddrsListEachOnce(sizes, |sizes|);
    SplitDuplicates(PlanAddrs(front), PlanAddrs([last]));
  }

  /** At most total/chunkSize full chunks, n/maxFiles chunks closed by the file cap, and a last one. */
  lemma ChunkCountBound(sizes: seq<int>, chunkSize: int, maxFiles: int, plan: seq<Chunk>)
    requires GreedyPlan(sizes, chunkSize, maxFiles, plan) && chunkSize >= 1 && maxFiles >= 1
    ensures |plan| <= |FileAddrs(sizes, |sizes|)| / chunkSize + |sizes| / maxFiles + 1
  {
    if plan != [] {
      FrontOfPlan(sizes, chunkSize, maxFiles, plan);
      ClosedChunkBound(sizes, chunkSize, maxFiles, plan[..|plan| - 1], |FileAddrs(sizes, |sizes|)|);
    }
  }

  // Ranges of one file -------------------------------------------------------

  function CeilDiv(x: int, d: int): int
    requires d >= 1
  {
    (x + d - 1) / d
  }

  lemma CeilDivNext(x: int, d: int)
    requires d >= 1
    ensures CeilDiv(x + d, d) == CeilDiv(x, d) + 1
    ensures 0 < x <= d ==> CeilDiv(x, d) == 1
  {
    var y := x + d - 1;
    assert y + d == (y / d + 1) * d + y % d by { TimesNext(y / d, d); }
    QuotientIs(y + d, d, y / d + 1, y % d);
    if 0 < x <= d {
      QuotientIs(y, d, 1, x - 1);
    }
  }

  lemma QuotientIs(x: int, d: int, q: int, r: int)
    requires d >= 1 && x == q * d + r && 0 <= r < d
    ensures x / d == q
  {
    AtMostQuotient(q, d, x);
    TimesNext(q, d);
    assert x / d * d <= x;
    if x / d > q {
      TimesMonotone(q + 1, x / d, d);
    }
  }

  lemma {:induction false} FileWithoutBytes(c: Chunk, sizes: seq<int>, file: nat)
    requires forall j | 0 <= j < |c| :: Inside(sizes, c[j])
    requires forall a | a in ChunkAddrs(c) :: a.file != file
    ensures Mentions(c, file) == 0
  {
    if c != [] {
      assert Inside(sizes, c[0]);
      assert RangeAddrs(c[0])[0] in ChunkAddrs(c);
      FileWithoutBytes(c[1..], sizes, file);
    }
  }

  lemma {:induction false} MentionedOnce(c: Chunk, sizes: seq<int>, file: nat)
    requires Ascending(c) && forall j | 0 <= j < |c| :: Inside(sizes, c[j])
    requires exists a :: a in ChunkAddrs(c) && a.file == file
    ensures Mentions(c, file) == 1
  {
    var a :| a in ChunkAddrs(c) && a.file == file;
    if c[0].fileIndex == file {
      forall b | b in ChunkAddrs(c[1..]) ensures b.file != file { LaterFiles(c, b); }
      FileWithoutBytes(c[1..], sizes, file);
    } else {
      assert a in ChunkAddrs(c[1..]);
      MentionedOnce(c[1..], sizes, file);
    }
  }

  lemma {:induction false} AddrInRange(c: Chunk, a: Addr)
    requires a in ChunkAddrs(c)
    ensures exists j :: 0 <= j < |c| && a in RangeAddrs(c[j])
  {
    if a in RangeAddrs(c[0]) {
    } else {
      AddrInRange(c[1..], a);
      var j :| 0 <= j < |c[1..]| && a in RangeAddrs(c[1..][j]);
      assert a in RangeAddrs(c[j + 1]);
    }
  }

  lemma LaterFiles(c: Chunk, a: Addr)
    requires c != [] && Ascending(c) && a in ChunkAddrs(c[1..])
    ensures a.file > c[0].fileIndex
  {
    AddrInRange(c[1..], a);
    var j :| 0 <= j < |c[1..]| && a in RangeAddrs(c[1..][j]);
    assert c[1..][j] == c[j + 1];
  }

  lemma LastAddr(sizes: seq<int>, c: Chunk)
    requires c != [] && Inside(sizes, c[|c| - 1])
    ensures ChunkAddrs(c) != []
    ensures ChunkAddrs(c)[|ChunkAddrs(c)| - 1] == Addr(c[|c| - 1].fileIndex, c[|c| - 1].endOffset - 1)
  {
    var last := RangeAddrs(c[|c| - 1]);
    assert last[|last| - 1] == Addr(c[|c| - 1].fileIndex, c[|c| - 1].endOffset - 1);
    hide *;
    assert c == c[..|c| - 1] + [c[|c| - 1]];
    AppendRange(c[..|c| - 1], c[|c| - 1]);
  }

  /** The last byte of a chunk that goes on later in the same file: such a chunk is full. */
  lemma CutMeansFull(sizes: seq<int>, chunkSize: int, maxFiles: int, c: Chunk)
    requires WellPacked(sizes, chunkSize, maxFiles, c)
    requires ChunkAddrs(c) != []
    requires var a := ChunkAddrs(c)[|ChunkAddrs(c)| - 1]; a.file < |sizes| && a.offset + 1 < sizes[a.file]
    ensures |ChunkAddrs(c)| == chunkSize
  {
    hide ChunkAddrs;
    LastAddr(sizes, c);
    assert !EndsItsFile(sizes, c[|c| - 1]);
  }

  lemma {:induction false} NoMoreRanges(sizes: seq<int>, chunkSize: int, maxFiles: int, plan: seq<Chunk>, file: nat)
    requires GreedyTail(sizes, chunkSize, maxFiles, plan)
    requires forall a | a in PlanAddrs(plan) :: a.file != file
    ensures RangeCount(plan, file) == 0
  {
    if plan != [] {
      assert WellPacked(sizes, chunkSize, maxFiles, plan[0]);
      FileWithoutBytes(plan[0], sizes, file);
      NoMoreRanges(sizes, chunkSize, maxFiles, plan[1..], file);
    }
  }

  /** From position `fill` on, `addrs` holds the bytes of `file` from `offset` to `size`, then others. */
  ghost predicate Lays(addrs: seq<Addr>, fill: int, file: nat, offset: int, size: int) {
    && 0 <= fill && 0 <= offset < size && fill + size - offset <= |addrs|
    && forall j | fill <= j < |addrs| ::
         if j < fill + size - offset then addrs[j] == Addr(file, offset + j - fill) else addrs[j].file != file
  }

  lemma LaysNext(addrs: seq<Addr>, front: seq<Addr>, rest: seq<Addr>, fill: int, file: nat, offset: int, size: int)
    requires addrs == front + rest && fill < |front| && Lays(addrs, fill, file, offset, size)
    ensures front[fill] == Addr(file, offset)
    ensures fill + size - offset <= |front| ==> forall a | a in rest :: a.file != file
    ensures fill + size - offset > |front| ==>
              && front[|front| - 1] == Addr(file, offset + |front| - fill - 1)
              && Lays(rest, 0, file, offset + |front| - fill, size)
  {
    assert forall j | 0 <= j < |rest| :: rest[j] == addrs[|front| + j];
    assert front[fill] == addrs[fill] && front[|front| - 1] == addrs[|front| - 1];
  }

  lemma FirstOfTail(sizes: seq<int>, chunkSize: int, maxFiles: int, plan: seq<Chunk>, file: nat)
    requires GreedyTail(sizes, chunkSize, maxFiles, plan) && plan != []
    ensures WellPacked(sizes, chunkSize, maxFiles, plan[0])
    ensures RangeCount(plan, file) == Mentions(plan[0], file) + RangeCount(plan[1..], file)
    ensures |ChunkAddrs(plan[0])| <= chunkSize
    ensures (exists a :: a in ChunkAddrs(plan[0]) && a.file == file) ==> Mentions(plan[0], file) == 1
  {
    assert WellPacked(sizes, chunkSize, maxFiles, plan[0]);
    assert Ascending(plan[0]) && forall j | 0 <= j < |plan[0]| :: Inside(sizes, plan[0][j]);
    if exists a :: a in ChunkAddrs(plan[0]) && a.file == file {
      hide *;
      MentionedOnce(plan[0], sizes, file);
    }
  }

  /** From byte `offset` of `file`, at fill `fill` of the first chunk, to the end of the file. */
  lemma {:induction false} RangesFrom(sizes: seq<int>, chunkSize: int, maxFiles: int, plan: seq<Chunk>,
                                      file: nat, offset: int, fill: int)
    requires GreedyTail(sizes, chunkSize, maxFiles, plan) && chunkSize >= 1
    requires plan != [] && 0 <= fill < |ChunkAddrs(plan[0])|
    requires file < |sizes| && Lays(PlanAddrs(plan), fill, file, offset, sizes[file])
    ensures RangeCount(plan, file) == CeilDiv(fill + sizes[file] - offset, chunkSize)
    decreases |plan|
  {
    assert 0 <= offset < sizes[file];
    hide *;
    NonEmpty(sizes, chunkSize, maxFiles, plan);
    FirstOfTail(sizes, chunkSize, maxFiles, plan, file);
    var c, rest := ChunkAddrs(plan[0]), plan[1..];
    LaysNext(PlanAddrs(plan), c, PlanAddrs(rest), fill, file, offset, sizes[file]);
    assert c[fill] in c;
    if fill + sizes[file] - offset <= |c| {
      NoMoreRanges(sizes, chunkSize, maxFiles, rest, file);
      CeilDivNext(fill + sizes[file] - offset, chunkSize);
    } else {
      var next := offset + |c| - fill;
      CutMeansFull(sizes, chunkSize, maxFiles, plan[0]);
      LaysSome(PlanAddrs(rest), 0, file, next, sizes[file]);
      NothingLeft();
      NonEmpty(sizes, chunkSize, maxFiles, rest);
      RangesFrom(sizes, chunkSize, maxFiles, rest, file, next, 0);
      CeilDivNext(sizes[file] - next, chunkSize);
    }
  }

  lemma LaysSome(addrs: seq<Addr>, fill: int, file: nat, offset: int, size: int)
    requires Lays(addrs, fill, file, offset, size)
    ensures addrs != []
  {
  }

  lemma NothingLeft()
    ensures PlanAddrs([]) == []
  {
  }

  lemma {:induction false} FileAddrsLay(sizes: seq<int>, file: nat, n: nat)
    requires file < n <= |sizes| && sizes[file] > 0
    ensures Lays(FileAddrs(sizes, n), |FileAddrs(sizes, file)|, file, 0, sizes[file])
    ensures FileAddrs(sizes, file) <= FileAddrs(sizes, n)
  {
    if n > file + 1 {
      FileAddrsLay(sizes, file, n - 1);
    }
  }

  lemma {:induction false} RangeCountSplit(p: seq<Chunk>, q: seq<Chunk>, file: nat)
    ensures RangeCount(p + q, file) == RangeCount(p, file) + RangeCount(q, file)
  {
    if p == [] {
      assert p + q == q;
    } else {
      assert (p + q)[0] == p[0] && (p + q)[1..] == p[1..] + q;
      RangeCountSplit(p[1..], q, file);
    }
  }

  /** The byte at `fill` of the tail is the first of `file`: the tail lays the file, the front has none of it. */
  lemma LaysFromStart(sizes: seq<int>, front: seq<Addr>, tail: seq<Addr>, file: nat, fill: nat)
    requires file < |sizes| && sizes[file] > 0 && front + tail == FileAddrs(sizes, |sizes|)
    requires fill < |tail| && tail[fill] == Addr(file, 0)
    ensures Lays(tail, fill, file, 0, sizes[file])
    ensures forall a | a in front :: a.file != file
  {
    var all, before := FileAddrs(sizes, |sizes|), FileAddrs(sizes, file);
    FileAddrsLay(sizes, file, |sizes|);
    FileAddrsListEachOnce(sizes, |sizes|);
    FileAddrsListEachOnce(sizes, file);
    hide FileAddrs;
    assert all[|front| + fill] == tail[fill] == all[|before|];
    assert |front| + fill == |before|;
    assert forall j | 0 <= j < |tail| :: tail[j] == all[|front| + j];
    assert forall j | 0 <= j < |front| :: front[j] == all[j] == before[j] && before[j] in before;
  }

  /** A file whose first byte lies at fill `fill` of a chunk is cut into ceil((fill + size) / chunkSize)
      ranges: exactly as many as its bytes, laid out in chunks of that size, touch. */
  lemma RangesOfFile(sizes: seq<int>, chunkSize: int, maxFiles: int, plan: seq<Chunk>, file: nat, p: nat, fill: nat)
    requires GreedyPlan(sizes, chunkSize, maxFiles, plan) && chunkSize >= 1
    requires file < |sizes| && sizes[file] > 0
    requires p < |plan| && fill < |ChunkAddrs(plan[p])| && ChunkAddrs(plan[p])[fill] == Addr(file, 0)
    ensures RangeCount(plan, file) == CeilDiv(fill + sizes[file], chunkSize)
  {
    assert GreedyTail(sizes, chunkSize, maxFiles, plan[..p]);
    assert GreedyTail(sizes, chunkSize, maxFiles, plan[p..]);
    assert PlanAddrs(plan) == FileAddrs(sizes, |sizes|);
    hide *;
    assert plan == plan[..p] + plan[p..];
    PlanAddrsAppend(plan[..p], plan[p..]);
    NonEmpty(sizes, chunkSize, maxFiles, plan[p..]);
    LaysFromStart(sizes, PlanAddrs(plan[..p]), PlanAddrs(plan[p..]), file, fill);
    NoMoreRanges(sizes, chunkSize, maxFiles, plan[..p], file);
    RangesFrom(sizes, chunkSize, maxFiles, plan[p..], file, 0, fill);
    RangeCountSplit(plan[..p], plan[p..], file);
  }

  // Machine arithmetic -------------------------------------------------------

  predicate ExactSum(fill: int, size: int) {
    Int64(fill + size) == fill + size
  }

  predicate ExactCount(fill: int, size: int, chunkSize: int)
    requires chunkSize >= 1
  {
    Int32(CeilDiv(fill + size, chunkSize)) == CeilDiv(fill + size, chunkSize)
  }

  /** The sum that the planner compares with the chunk size is exact for every fill of the open chunk
      if and only if the file is not larger than 2^63 - chunkSize. */
  lemma SumIsExactIff(chunkSize: int, size: int)
    requires 1 <= chunkSize < TWO_TO_THE_63 && 0 <= size < TWO_TO_THE_63
    ensures (forall fill | 0 <= fill < chunkSize :: ExactSum(fill, size)) <==> size <= TWO_TO_THE_63 - chunkSize
  {
    if size > TWO_TO_THE_63 - chunkSize {
      assert !ExactSum(chunkSize - 1, size);
    }
  }

  /** The 32-bit range counter holds the range count for every fill of the open chunk if and only if
      the file is not larger than (2^31 - 2) * chunkSize + 1. */
  lemma CounterIsExactIff(chunkSize: int, size: int)
    requires 1 <= chunkSize && 0 < size
    ensures (forall fill | 0 <= fill < chunkSize :: ExactCount(fill, size, chunkSize))
       <==> size <= (TWO_TO_THE_31 - 2) * chunkSize + 1
  {
    var limit := (TWO_TO_THE_31 - 2) * chunkSize + 1;
    if size <= limit {
      forall fill | 0 <= fill < chunkSize ensures ExactCount(fill, size, chunkSize) {
        CeilDivBelow(fill + size, chunkSize, TWO_TO_THE_31 - 1);
      }
    } else {
      CeilDivAbove(chunkSize - 1 + size, chunkSize, TWO_TO_THE_31 - 1);
      assert !ExactCount(chunkSize - 1, size, chunkSize);
    }
  }

  lemma CeilDivBelow(x: int, d: int, q: int)
    requires d >= 1 && x <= q * d
    ensures CeilDiv(x, d) <= q
  {
    AtMostQuotient(CeilDiv(x, d), d, x + d - 1);
    TimesNext(q, d);
    if CeilDiv(x, d) > q {
      TimesMonotone(q + 1, CeilDiv(x, d), d);
    }
  }

  lemma CeilDivAbove(x: int, d: int, q: int)
    requires d >= 1 && x > q * d
    ensures CeilDiv(x, d) > q
  {
    assert x <= CeilDiv(x, d) * d;
    if CeilDiv(x, d) <= q {
      TimesMonotone(CeilDiv(x, d), q, d);
    }
  }
}
