/** The chunk planner `BuildChunks` and what its result is (src/types/chunk.go). */
module Planning {
  import opened Names

  datatype FileRange = FileRange(fileIndex: nat, startOffset: int, endOffset: int)

  type Chunk = seq<FileRange>

  /** One byte position of one file. */
  datatype Addr = Addr(file: nat, offset: int)

  function Span(file: nat, from: int, to: int): (s: seq<Addr>)
    ensures |s| == if from < to then to - from else 0
    ensures forall k | 0 <= k < |s| :: s[k] == Addr(file, from + k)
  {
    if from < to then seq(to - from, k => Addr(file, from + k)) else []
  }

  function RangeAddrs(r: FileRange): seq<Addr> {
    Span(r.fileIndex, r.startOffset, r.endOffset)
  }

  function ChunkAddrs(c: Chunk): seq<Addr> {
    if c == [] then [] else RangeAddrs(c[0]) + ChunkAddrs(c[1..])
  }

  function PlanAddrs(chunks: seq<Chunk>): seq<Addr> {
    if chunks == [] then [] else ChunkAddrs(chunks[0]) + PlanAddrs(chunks[1..])
  }

  /** Every byte position of the first `n` files, in file order. */
  function FileAddrs(sizes: seq<int>, n: nat): seq<Addr>
    requires n <= |sizes|
  {
    if n == 0 then [] else FileAddrs(sizes, n - 1) + Span(n - 1, 0, sizes[n - 1])
  }

  function Mentions(c: Chunk, file: nat): nat {
    if c == [] then 0 else (if c[0].fileIndex == file then 1 else 0) + Mentions(c[1..], file)
  }

  /** How many ranges of the plan belong to `file`. */
  function RangeCount(chunks: seq<Chunk>, file: nat): nat {
    if chunks == [] then 0 else Mentions(chunks[0], file) + RangeCount(chunks[1..], file)
  }

  function Sizes(files: seq<FileEntry>): (s: seq<int>)
    ensures |s| == |files| && forall k | 0 <= k < |s| :: s[k] == files[k].size
  {
    seq(|files|, k requires 0 <= k < |files| => files[k].size)
  }

  /** The entries as they were before any range was counted. */
  function Uncounted(files: seq<FileEntry>): (s: seq<FileEntry>)
    ensures |s| == |files| && forall k | 0 <= k < |s| :: s[k] == files[k].(remaining := 0)
  {
    seq(|files|, k requires 0 <= k < |files| => files[k].(remaining := 0))
  }

  // What a plan is -----------------------------------------------------------

  ghost predicate Ascending(c: Chunk) {
    forall j, k | 0 <= j < k < |c| :: c[j].fileIndex < c[k].fileIndex
  }

  ghost predicate Inside(sizes: seq<int>, r: FileRange) {
    r.fileIndex < |sizes| && 0 <= r.startOffset < r.endOffset <= sizes[r.fileIndex]
  }

  ghost predicate EndsItsFile(sizes: seq<int>, r: FileRange) {
    r.fileIndex < |sizes| && r.endOffset == sizes[r.fileIndex]
  }

  /** Non-empty ranges of distinct files, in file order, within the range cap. */
  ghost predicate Tile(sizes: seq<int>, maxFiles: int, c: Chunk) {
    && c != []
    && Ascending(c)
    && (forall j | 0 <= j < |c| :: Inside(sizes, c[j]))
    && (maxFiles >= 1 ==> |c| <= maxFiles)
  }

  /** A tile within the byte cap; only a full chunk cuts a file. */
  ghost predicate WellPacked(sizes: seq<int>, chunkSize: int, maxFiles: int, c: Chunk) {
    && Tile(sizes, maxFiles, c)
    && |ChunkAddrs(c)| <= chunkSize
    && (|ChunkAddrs(c)| < chunkSize ==> forall j | 0 <= j < |c| :: EndsItsFile(sizes, c[j]))
  }

  ghost predicate Closed(chunkSize: int, maxFiles: int, c: Chunk) {
    |ChunkAddrs(c)| == chunkSize || |c| == maxFiles
  }

  /** The whole contract of a plan: it lists every byte of every file once, in order, and every
      chunk but the last is as large as the caps allow. `GreedyPlanIsUnique` shows that no two
      plans satisfy it. */
  ghost predicate GreedyPlan(sizes: seq<int>, chunkSize: int, maxFiles: int, chunks: seq<Chunk>) {
    && PlanAddrs(chunks) == FileAddrs(sizes, |sizes|)
    && (forall c | 0 <= c < |chunks| :: WellPacked(sizes, chunkSize, maxFiles, chunks[c]))
    && (forall c | 0 <= c < |chunks| - 1 :: Closed(chunkSize, maxFiles, chunks[c]))
  }

  /** What holds of the result for all file sizes: every byte of every file once, in order, in tiles. */
  ghost predicate Tiling(sizes: seq<int>, maxFiles: int, chunks: seq<Chunk>) {
    PlanAddrs(chunks) == FileAddrs(sizes, |sizes|) && forall c | 0 <= c < |chunks| :: Tile(sizes, maxFiles, chunks[c])
  }

  // Appending ----------------------------------------------------------------

  lemma {:induction false} ChunkAddrsAppend(c: Chunk, d: Chunk)
    ensures ChunkAddrs(c + d) == ChunkAddrs(c) + ChunkAddrs(d)
  {
    if c == [] {
      assert c + d == d;
    } else {
      assert (c + d)[0] == c[0] && (c + d)[1..] == c[1..] + d;
      ChunkAddrsAppend(c[1..], d);
    }
  }

  lemma {:induction false} PlanAddrsAppend(p: seq<Chunk>, q: seq<Chunk>)
    ensures PlanAddrs(p + q) == PlanAddrs(p) + PlanAddrs(q)
  {
    if p == [] {
      assert p + q == q;
    } else {
      assert (p + q)[0] == p[0] && (p + q)[1..] == p[1..] + q;
      PlanAddrsAppend(p[1..], q);
    }
  }

  lemma AppendRange(c: Chunk, r: FileRange)
    ensures ChunkAddrs(c + [r]) == ChunkAddrs(c) + RangeAddrs(r)
  {
    ChunkAddrsAppend(c, [r]);
    assert ChunkAddrs([r]) == RangeAddrs(r) + ChunkAddrs([]);
  }

  lemma AppendChunk(p: seq<Chunk>, c: Chunk)
    ensures PlanAddrs(p + [c]) == PlanAddrs(p) + ChunkAddrs(c)
  {
    PlanAddrsAppend(p, [c]);
    assert PlanAddrs([c]) == ChunkAddrs(c) + PlanAddrs([]);
  }

  lemma {:induction false} MentionsAppend(c: Chunk, r: FileRange, file: nat)
    ensures Mentions(c + [r], file) == Mentions(c, file) + if r.fileIndex == file then 1 else 0
  {
    if c != [] {
      assert (c + [r])[0] == c[0] && (c + [r])[1..] == c[1..] + [r];
      MentionsAppend(c[1..], r, file);
    }
  }

  lemma {:induction false} RangeCountAppend(p: seq<Chunk>, c: Chunk, file: nat)
    ensures RangeCount(p + [c], file) == RangeCount(p, file) + Mentions(c, file)
  {
    if p != [] {
      assert (p + [c])[0] == p[0] && (p + [c])[1..] == p[1..] + [c];
      RangeCountAppend(p[1..], c, file);
    }
  }

  // The loop of BuildChunks --------------------------------------------------

  /** The chunk under construction: every range in it ends its file, it is below the range cap, and if
      the sums `fit` into the machine's integers, below the byte cap. */
  ghost predicate Open(sizes: seq<int>, chunkSize: int, maxFiles: int, fit: bool, c: Chunk, next: nat) {
    && Ascending(c)
    && (forall j | 0 <= j < |c| :: Inside(sizes, c[j]) && EndsItsFile(sizes, c[j]) && c[j].fileIndex < next)
    && (fit ==> |ChunkAddrs(c)| < chunkSize)
    && (maxFiles >= 1 ==> |c| < maxFiles)
  }

  /** The plan so far covers the files before `i` and `offset` bytes of file `i`. */
  ghost predicate Partial(sizes: seq<int>, chunkSize: int, maxFiles: int, fit: bool,
                          chunks: seq<Chunk>, open: Chunk, i: nat, offset: int) {
    && i <= |sizes| && 0 <= offset && (offset > 0 ==> open == [] && i < |sizes| && offset <= sizes[i])
    && PlanAddrs(chunks) + ChunkAddrs(open) == FileAddrs(sizes, i) + Span(i, 0, offset)
    && Open(sizes, chunkSize, maxFiles, fit, open, i)
    && AllClosed(sizes, chunkSize, maxFiles, fit, chunks)
  }

  ghost predicate Sealed(sizes: seq<int>, chunkSize: int, maxFiles: int, fit: bool, c: Chunk) {
    Tile(sizes, maxFiles, c) &&
    (fit ==> WellPacked(sizes, chunkSize, maxFiles, c) && Closed(chunkSize, maxFiles, c))
  }

  ghost predicate AllClosed(sizes: seq<int>, chunkSize: int, maxFiles: int, fit: bool, chunks: seq<Chunk>) {
    forall c | 0 <= c < |chunks| :: Sealed(sizes, chunkSize, maxFiles, fit, chunks[c])
  }

  lemma Regroup<T>(a: seq<T>, b: seq<T>, c: seq<T>, d: seq<T>, tail: seq<T>)
    requires a + b == c + d
    ensures a + (b + tail) == c + (d + tail)
  {
    assert a + (b + tail) == (a + b) + tail;
    assert c + (d + tail) == (c + d) + tail;
  }

  lemma Extends(sizes: seq<int>, chunks: seq<Chunk>, open: Chunk, i: nat, offset: int, end: int)
    requires i <= |sizes| && 0 <= offset < end
    requires PlanAddrs(chunks) + ChunkAddrs(open) == FileAddrs(sizes, i) + Span(i, 0, offset)
    ensures ChunkAddrs(open + [FileRange(i, offset, end)]) == ChunkAddrs(open) + Span(i, offset, end)
    ensures PlanAddrs(chunks) + ChunkAddrs(open + [FileRange(i, offset, end)])
         == FileAddrs(sizes, i) + Span(i, 0, end)
  {
    hide FileAddrs, PlanAddrs, ChunkAddrs;
    AppendRange(open, FileRange(i, offset, end));
    assert Span(i, 0, offset) + Span(i, offset, end) == Span(i, 0, end);
    Regroup(PlanAddrs(chunks), ChunkAddrs(open), FileAddrs(sizes, i), Span(i, 0, offset), Span(i, offset, end));
  }

  lemma OneMore(sizes: seq<int>, chunkSize: int, maxFiles: int, fit: bool, open: Chunk, r: FileRange)
    requires Open(sizes, chunkSize, maxFiles, fit, open, r.fileIndex) && Inside(sizes, r)
    ensures Tile(sizes, maxFiles, open + [r])
    ensures |ChunkAddrs(open + [r])| == |ChunkAddrs(open)| + r.endOffset - r.startOffset
    ensures |ChunkAddrs(open + [r])| == chunkSize ==> WellPacked(sizes, chunkSize, maxFiles, open + [r])
    ensures |ChunkAddrs(open + [r])| < chunkSize && EndsItsFile(sizes, r) ==>
              WellPacked(sizes, chunkSize, maxFiles, open + [r])
  {
    AppendRange(open, r);
  }

  lemma Closes(sizes: seq<int>, chunkSize: int, maxFiles: int, fit: bool, chunks: seq<Chunk>, c: Chunk,
               i: nat, offset: int)
    requires i <= |sizes| && 0 <= offset && (offset > 0 ==> i < |sizes| && offset <= sizes[i]) && chunkSize >= 1
    requires PlanAddrs(chunks) + ChunkAddrs(c) == FileAddrs(sizes, i) + Span(i, 0, offset)
    requires AllClosed(sizes, chunkSize, maxFiles, fit, chunks) && Sealed(sizes, chunkSize, maxFiles, fit, c)
    ensures Partial(sizes, chunkSize, maxFiles, fit, chunks + [c], [], i, offset)
  {
    AppendChunk(chunks, c);
    assert ChunkAddrs([]) == [];
    assert PlanAddrs(chunks + [c]) + [] == PlanAddrs(chunks + [c]);
    hide Sealed;
    assert AllClosed(sizes, chunkSize, maxFiles, fit, chunks + [c]);
  }

  lemma WholeFile(sizes: seq<int>, i: nat)
    requires i < |sizes|
    ensures FileAddrs(sizes, i + 1) + Span(i + 1, 0, 0) == FileAddrs(sizes, i) + Span(i, 0, sizes[i])
  {
  }

  /** The rest of a file is taken as a whole, because it fits or because the sum has wrapped around: the
      chunk stays open unless it has reached the range cap. */
  lemma TakesRest(sizes: seq<int>, chunkSize: int, maxFiles: int, fit: bool, chunks: seq<Chunk>, open: Chunk,
                  i: nat, offset: int)
    requires Partial(sizes, chunkSize, maxFiles, fit, chunks, open, i, offset)
    requires i < |sizes| && offset < sizes[i] && chunkSize >= 1
    requires fit ==> |ChunkAddrs(open)| + sizes[i] - offset < chunkSize
    ensures var c := open + [FileRange(i, offset, sizes[i])];
            && |ChunkAddrs(c)| == |ChunkAddrs(open)| + sizes[i] - offset
            && if |c| == maxFiles then Partial(sizes, chunkSize, maxFiles, fit, chunks + [c], [], i + 1, 0)
               else Partial(sizes, chunkSize, maxFiles, fit, chunks, c, i + 1, 0)
  {
    var r := FileRange(i, offset, sizes[i]);
    Extends(sizes, chunks, open, i, offset, sizes[i]);
    OneMore(sizes, chunkSize, maxFiles, fit, open, r);
    WholeFile(sizes, i);
    if |open + [r]| == maxFiles {
      Closes(sizes, chunkSize, maxFiles, fit, chunks, open + [r], i + 1, 0);
    }
  }

  /** The rest does not fit: `size` bytes of it fill the chunk, which is closed. */
  lemma Splits(sizes: seq<int>, chunkSize: int, maxFiles: int, fit: bool, chunks: seq<Chunk>, open: Chunk,
               i: nat, offset: int, size: int)
    requires Partial(sizes, chunkSize, maxFiles, fit, chunks, open, i, offset)
    requires i < |sizes| && 0 < size <= sizes[i] - offset && chunkSize >= 1
    requires fit ==> |ChunkAddrs(open)| + size == chunkSize
    ensures var c := open + [FileRange(i, offset, offset + size)];
            Partial(sizes, chunkSize, maxFiles, fit, chunks + [c], [], i, offset + size)
  {
    SplitIsSealed(sizes, chunkSize, maxFiles, fit, open, i, offset, size);
    Extends(sizes, chunks, open, i, offset, offset + size);
    hide Sealed, Open, AllClosed, ChunkAddrs, PlanAddrs, FileAddrs;
    Closes(sizes, chunkSize, maxFiles, fit, chunks, open + [FileRange(i, offset, offset + size)], i, offset + size);
  }

  lemma SplitIsSealed(sizes: seq<int>, chunkSize: int, maxFiles: int, fit: bool, open: Chunk, i: nat, offset: int, size: int)
    requires Open(sizes, chunkSize, maxFiles, fit, open, i) && i < |sizes| && 0 <= offset && 0 < size <= sizes[i] - offset
    requires fit ==> |ChunkAddrs(open)| + size == chunkSize
    ensures Sealed(sizes, chunkSize, maxFiles, fit, open + [FileRange(i, offset, offset + size)])
  {
    OneMore(sizes, chunkSize, maxFiles, fit, open, FileRange(i, offset, offset + size));
    hide Tile, WellPacked, Open, ChunkAddrs;
  }

  lemma NextFile(sizes: seq<int>, chunkSize: int, maxFiles: int, fit: bool, chunks: seq<Chunk>, open: Chunk,
                 i: nat, offset: int)
    requires Partial(sizes, chunkSize, maxFiles, fit, chunks, open, i, offset)
    requires i < |sizes| && offset >= sizes[i]
    ensures Partial(sizes, chunkSize, maxFiles, fit, chunks, open, i + 1, 0)
  {
    assert Span(i, 0, offset) == Span(i, 0, sizes[i]);
    WholeFile(sizes, i);
  }

  lemma Finishes(sizes: seq<int>, chunkSize: int, maxFiles: int, fit: bool, chunks: seq<Chunk>, open: Chunk)
    requires Partial(sizes, chunkSize, maxFiles, fit, chunks, open, |sizes|, 0)
    ensures var plan := if open == [] then chunks else chunks + [open];
            Tiling(sizes, maxFiles, plan) && (fit ==> GreedyPlan(sizes, chunkSize, maxFiles, plan))
  {
    assert FileAddrs(sizes, |sizes|) + Span(|sizes|, 0, 0) == FileAddrs(sizes, |sizes|);
    AllPacked(sizes, chunkSize, maxFiles, fit, chunks);
    if open == [] {
      assert ChunkAddrs(open) == [] && PlanAddrs(chunks) + [] == PlanAddrs(chunks);
      hide Tile, WellPacked, Closed, PlanAddrs, FileAddrs, ChunkAddrs, Partial;
    } else {
      OpenIsPacked(sizes, chunkSize, maxFiles, fit, open, |sizes|);
      AppendChunk(chunks, open);
      hide *;
      OneMoreTile(sizes, chunkSize, maxFiles, fit, chunks, open);
    }
  }

  /** Closed chunks, and one more that need not be closed. */
  lemma OneMoreTile(sizes: seq<int>, chunkSize: int, maxFiles: int, fit: bool, chunks: seq<Chunk>, last: Chunk)
    requires PlanAddrs(chunks + [last]) == FileAddrs(sizes, |sizes|)
    requires forall c | 0 <= c < |chunks| :: Tile(sizes, maxFiles, chunks[c])
    requires fit ==> forall c | 0 <= c < |chunks| :: WellPacked(sizes, chunkSize, maxFiles, chunks[c])
    requires fit ==> forall c | 0 <= c < |chunks| :: Closed(chunkSize, maxFiles, chunks[c])
    requires Tile(sizes, maxFiles, last) && (fit ==> WellPacked(sizes, chunkSize, maxFiles, last))
    ensures Tiling(sizes, maxFiles, chunks + [last])
    ensures fit ==> GreedyPlan(sizes, chunkSize, maxFiles, chunks + [last])
  {
    hide Tile, WellPacked, Closed, PlanAddrs, FileAddrs;
    var plan := chunks + [last];
    forall c | 0 <= c < |plan|
      ensures Tile(sizes, maxFiles, plan[c]) && (fit ==> WellPacked(sizes, chunkSize, maxFiles, plan[c]))
      ensures fit && c < |plan| - 1 ==> Closed(chunkSize, maxFiles, plan[c])
    {
      assert plan[c] == if c < |chunks| then chunks[c] else last;
    }
  }

  lemma OpenIsPacked(sizes: seq<int>, chunkSize: int, maxFiles: int, fit: bool, open: Chunk, next: nat)
    requires Open(sizes, chunkSize, maxFiles, fit, open, next) && open != []
    ensures Tile(sizes, maxFiles, open) && (fit ==> WellPacked(sizes, chunkSize, maxFiles, open))
  {
    hide ChunkAddrs, Ascending, Inside, EndsItsFile;
  }

  lemma AllPacked(sizes: seq<int>, chunkSize: int, maxFiles: int, fit: bool, chunks: seq<Chunk>)
    requires AllClosed(sizes, chunkSize, maxFiles, fit, chunks)
    ensures forall c | 0 <= c < |chunks| :: Tile(sizes, maxFiles, chunks[c])
    ensures fit ==> forall c | 0 <= c < |chunks| :: WellPacked(sizes, chunkSize, maxFiles, chunks[c])
    ensures fit ==> forall c | 0 <= c < |chunks| :: Closed(chunkSize, maxFiles, chunks[c])
  {
    hide Tile, WellPacked, Closed;
  }

  // Machine arithmetic -------------------------------------------------------

  const TWO_TO_THE_31 := 0x8000_0000
  const TWO_TO_THE_63 := 0x8000_0000_0000_0000

  /** Signed wrap-around of Go's int64 and int32. */
  function Int64(x: int): int { (x + TWO_TO_THE_63) % (2 * TWO_TO_THE_63) - TWO_TO_THE_63 }

  function Int32(x: int): int { (x + TWO_TO_THE_31) % (2 * TWO_TO_THE_31) - TWO_TO_THE_31 }

  /** Wrapping around is the only thing that happens to a number too large for the machine. */
  lemma Int64Iff(x: int, y: int)
    ensures y == Int64(x) <==> -TWO_TO_THE_63 <= y < TWO_TO_THE_63 && (x - y) % (2 * TWO_TO_THE_63) == 0
  {
  }

  lemma Int32Iff(x: int, y: int)
    ensures y == Int32(x) <==> -TWO_TO_THE_31 <= y < TWO_TO_THE_31 && (x - y) % (2 * TWO_TO_THE_31) == 0
  {
  }

  lemma NextInt32(x: int)
    ensures Int32(Int32(x) + 1) == Int32(x + 1)
  {
  }

  /** The entries are int64 sizes, and nothing has been counted yet. */
  ghost predicate Entries(files: seq<FileEntry>) {
    forall f | f in files :: f.remaining == 0 && -TWO_TO_THE_63 <= f.size < TWO_TO_THE_63
  }

  /** The sizes with which no sum of the planner wraps around, whatever the fill. */
  ghost predicate Fit(sizes: seq<int>, chunkSize: int) {
    forall k | 0 <= k < |sizes| :: sizes[k] <= TWO_TO_THE_63 - chunkSize
  }

  /** What the planner adds up is the number of bytes in the open chunk, if the sums fit, and in any
      case below the cap: that is what it has compared. */
  ghost predicate Summed(chunkSize: int, fit: bool, open: Chunk, sum: int) {
    -TWO_TO_THE_63 <= sum < chunkSize && (fit ==> sum == |ChunkAddrs(open)|)
  }

  lemma SumGoesOn(chunkSize: int, fit: bool, open: Chunk, sum: int, rest: int)
    requires 1 <= chunkSize < TWO_TO_THE_63 && Summed(chunkSize, fit, open, sum) && 0 < rest < TWO_TO_THE_63
    requires fit ==> rest <= TWO_TO_THE_63 - chunkSize
    ensures fit ==> Int64(sum + rest) == |ChunkAddrs(open)| + rest
    ensures Int64(sum + rest) >= chunkSize ==> 0 < chunkSize - sum <= rest && Int64(chunkSize - sum) == chunkSize - sum
  {
    hide ChunkAddrs;
  }

  lemma {:induction false} TimesMonotone(a: int, b: int, c: int)
    requires a <= b && c >= 0
    ensures a * c <= b * c
  {
    assert (b - a) * c >= 0;
  }

  lemma TimesNext(a: int, c: int)
    ensures (a + 1) * c == a * c + c
  {
  }

  /** Every entry has counted its ranges in the closed chunks and in the open one, in 32 bits. */
  ghost predicate Counted(files: seq<FileEntry>, chunks: seq<Chunk>, open: Chunk) {
    forall k | 0 <= k < |files| :: files[k].remaining == Int32(RangeCount(chunks, k) + Mentions(open, k))
  }

  lemma CountedMore(files: seq<FileEntry>, chunks: seq<Chunk>, open: Chunk, r: FileRange)
    requires Counted(files, chunks, open) && r.fileIndex < |files|
    ensures var f := files[r.fileIndex];
            Counted(files[r.fileIndex := f.(remaining := Int32(f.remaining + 1))], chunks, open + [r])
  {
    NextInt32(RangeCount(chunks, r.fileIndex) + Mentions(open, r.fileIndex));
    hide Int32;
    forall k | 0 <= k < |files|
      ensures Mentions(open + [r], k) == Mentions(open, k) + if r.fileIndex == k then 1 else 0
    {
      MentionsAppend(open, r, k);
    }
  }

  lemma CountedClosed(files: seq<FileEntry>, chunks: seq<Chunk>, open: Chunk)
    requires Counted(files, chunks, open)
    ensures Counted(files, chunks + [open], [])
  {
    hide Int32;
    forall k | 0 <= k < |files|
      ensures RangeCount(chunks + [open], k) == RangeCount(chunks, k) + Mentions(open, k)
    {
      RangeCountAppend(chunks, open, k);
    }
  }

  method IncrementRemainingChunkCount(files: array<FileEntry>, index: nat)
    requires index < files.Length
    modifies files
    ensures var f := old(files[index]);
            files[..] == old(files[..])[index := f.(remaining := Int32(f.remaining + 1))]
  {
    files[index] := files[index].(remaining := Int32(files[index].remaining + 1));
  }

  lemma Starts(sizes: seq<int>, chunkSize: int, maxFiles: int, fit: bool, files: seq<FileEntry>)
    requires chunkSize >= 1 && forall k | 0 <= k < |files| :: files[k].remaining == 0
    ensures Partial(sizes, chunkSize, maxFiles, fit, [], [], 0, 0) && Summed(chunkSize, fit, [], 0)
    ensures Counted(files, [], [])
  {
  }

  lemma EntryFits(files: seq<FileEntry>, k: nat)
    requires Entries(files) && k < |files|
    ensures files[k].remaining == 0 && -TWO_TO_THE_63 <= files[k].size < TWO_TO_THE_63
  {
    assert files[k] in files;
  }

  lemma PermutationFits(files: seq<FileEntry>, sorted: seq<FileEntry>)
    requires Entries(files) && multiset(files) == multiset(sorted)
    ensures Entries(sorted) && forall k | 0 <= k < |sorted| :: sorted[k].remaining == 0
  {
    assert forall f :: f in sorted ==> f in multiset(files);
    forall k | 0 <= k < |sorted| ensures sorted[k].remaining == 0 { EntryFits(sorted, k); }
  }

  /** The inner loop of `BuildChunks`: cuts one file into ranges. */
  method AddFile(files: array<FileEntry>, ghost sorted: seq<FileEntry>, chunkSize: int, maxFiles: int, index: nat,
                 chunks: seq<Chunk>, open: Chunk, openSize: int)
    returns (chunkList: seq<Chunk>, chunk: Chunk, currentChunkSize: int)
    requires 1 <= chunkSize < TWO_TO_THE_63 && Entries(sorted) && index < files.Length == |sorted|
    requires Summed(chunkSize, Fit(Sizes(sorted), chunkSize), open, openSize)
    requires Partial(Sizes(sorted), chunkSize, maxFiles, Fit(Sizes(sorted), chunkSize), chunks, open, index, 0)
    requires Uncounted(files[..]) == sorted && Counted(files[..], chunks, open)
    modifies files
    ensures Summed(chunkSize, Fit(Sizes(sorted), chunkSize), chunk, currentChunkSize)
    ensures Partial(Sizes(sorted), chunkSize, maxFiles, Fit(Sizes(sorted), chunkSize), chunkList, chunk, index + 1, 0)
    ensures Uncounted(files[..]) == sorted && Counted(files[..], chunkList, chunk)
  {
    hide *;
    ghost var sizes := Sizes(sorted);
    ghost var fit := Fit(sizes, chunkSize);
    chunkList, chunk, currentChunkSize := chunks, open, openSize;
    var startOffset := 0;
    var remainFilesize := files[index].size;
    assert files[index].size == Uncounted(files[..])[index].size == sizes[index];
    EntryFits(sorted, index);
    while remainFilesize > 0
      invariant 0 <= startOffset && remainFilesize == sizes[index] - startOffset
      invariant Summed(chunkSize, fit, chunk, currentChunkSize)
      invariant Partial(sizes, chunkSize, maxFiles, fit, chunkList, chunk, index, startOffset)
      invariant Uncounted(files[..]) == sorted && Counted(files[..], chunkList, chunk)
    {
      ghost var before := files[..];
      FitOne(sizes, chunkSize, index);
      SumGoesOn(chunkSize, fit, chunk, currentChunkSize, remainFilesize);
      IncrementRemainingChunkCount(files, index);

      var sum := Int64(currentChunkSize + remainFilesize);
      if sum < chunkSize {
        TakesRest(sizes, chunkSize, maxFiles, fit, chunkList, chunk, index, startOffset);
        CountedMore(before, chunkList, chunk, FileRange(index, startOffset, sizes[index]));
        chunk := chunk + [FileRange(index, startOffset, files[index].size)];
        Int64InRange(currentChunkSize + remainFilesize);
        SummedIs(chunkSize, fit, chunk, sum);
        currentChunkSize := sum;
        if |chunk| == maxFiles {
          CountedClosed(files[..], chunkList, chunk);
          NothingSummed(chunkSize, fit);
          chunkList, chunk, currentChunkSize := chunkList + [chunk], [], 0;
        }
        return;
      }
      var size := Int64(chunkSize - currentChunkSize);
      SummedIsExact(chunkSize, fit, chunk, currentChunkSize);
      Splits(sizes, chunkSize, maxFiles, fit, chunkList, chunk, index, startOffset, size);
      CountedMore(before, chunkList, chunk, FileRange(index, startOffset, startOffset + size));
      chunk := chunk + [FileRange(index, startOffset, startOffset + size)];
      CountedClosed(files[..], chunkList, chunk);
      NothingSummed(chunkSize, fit);
      chunkList, chunk, currentChunkSize := chunkList + [chunk], [], 0;
      startOffset := startOffset + size;
      remainFilesize := remainFilesize - size;
    }
    NextFile(sizes, chunkSize, maxFiles, fit, chunkList, chunk, index, startOffset);
  }

  lemma FitOne(sizes: seq<int>, chunkSize: int, k: nat)
    requires k < |sizes|
    ensures Fit(sizes, chunkSize) ==> sizes[k] <= TWO_TO_THE_63 - chunkSize
  {
  }

  lemma Int64InRange(x: int)
    ensures -TWO_TO_THE_63 <= Int64(x) < TWO_TO_THE_63
  {
  }

  lemma SummedIs(chunkSize: int, fit: bool, open: Chunk, sum: int)
    requires -TWO_TO_THE_63 <= sum < chunkSize && (fit ==> sum == |ChunkAddrs(open)|)
    ensures Summed(chunkSize, fit, open, sum)
  {
  }

  lemma SummedIsExact(chunkSize: int, fit: bool, open: Chunk, sum: int)
    requires Summed(chunkSize, fit, open, sum)
    ensures fit ==> sum == |ChunkAddrs(open)|
  {
  }

  lemma NothingSummed(chunkSize: int, fit: bool)
    requires chunkSize >= 1
    ensures Summed(chunkSize, fit, [], 0)
  {
  }

  /** Sorts the files in place, cuts them into chunks and counts the ranges of each file. The tiling is
      right for all sizes; the byte cap is kept if no sum wraps around. */
  method BuildChunks(files: array<FileEntry>, chunkSize: int, maxFiles: int) returns (chunkList: seq<Chunk>)
    requires 1 <= chunkSize < TWO_TO_THE_63 && Entries(files[..])
    modifies files
    ensures SortedByName(files[..])
    ensures multiset(Uncounted(files[..])) == old(multiset(files[..]))
    ensures Tiling(Sizes(files[..]), maxFiles, chunkList)
    ensures Fit(Sizes(files[..]), chunkSize) ==> GreedyPlan(Sizes(files[..]), chunkSize, maxFiles, chunkList)
    ensures Counted(files[..], chunkList, [])
  {
    hide *;
    chunkList := [];
    ghost var original := files[..];
    if files.Length != 0 {
      SortByName(files);
    } else {
      SortedTrivially(original);
    }
    ghost var sorted := files[..];
    ghost var sizes := Sizes(sorted);
    ghost var fit := Fit(sizes, chunkSize);
    PermutationFits(original, sorted);
    Starts(sizes, chunkSize, maxFiles, fit, sorted);
    assert Uncounted(sorted) == sorted;

    var chunk: Chunk := [];
    var currentChunkSize := 0;
    var index := 0;
    while index < files.Length
      invariant 0 <= index <= files.Length == |sorted|
      invariant Summed(chunkSize, fit, chunk, currentChunkSize)
      invariant Partial(sizes, chunkSize, maxFiles, fit, chunkList, chunk, index, 0)
      invariant Uncounted(files[..]) == sorted && Counted(files[..], chunkList, chunk)
    {
      chunkList, chunk, currentChunkSize :=
        AddFile(files, sorted, chunkSize, maxFiles, index, chunkList, chunk, currentChunkSize);
      index := index + 1;
    }

    Finishes(sizes, chunkSize, maxFiles, fit, chunkList, chunk);
    if |chunk| > 0 {
      CountedClosed(files[..], chunkList, chunk);
      chunkList := chunkList + [chunk];
    }
    StaysSorted(files[..], sorted);
  }

  lemma StaysSorted(files: seq<FileEntry>, sorted: seq<FileEntry>)
    requires SortedByName(sorted) && Uncounted(files) == sorted
    ensures SortedByName(files) && Sizes(files) == Sizes(sorted)
  {
    assert forall k | 0 <= k < |files| :: sorted[k].name == files[k].name && sorted[k].size == files[k].size;
  }

  lemma SortedTrivially(files: seq<FileEntry>)
    requires files == []
    ensures SortedByName(files)
  {
  }
}
