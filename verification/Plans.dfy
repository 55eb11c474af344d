/** What follows from a greedy plan: it is unique, it splits the files, and its size is bounded. */
module Plans {
  import opened Planning

  // Uniqueness ---------------------------------------------------------------

  lemma FirstAddr(c: Chunk, sizes: seq<int>)
    requires c != [] && Inside(sizes, c[0])
    ensures ChunkAddrs(c) != []
    ensures ChunkAddrs(c)[0] == Addr(c[0].fileIndex, c[0].startOffset)
    ensures forall k | 0 <= k < c[0].endOffset - c[0].startOffset ::
              k < |ChunkAddrs(c)| && ChunkAddrs(c)[k] == Addr(c[0].fileIndex, c[0].startOffset + k)
  {
  }

  /** Past the first range a chunk goes on with another file. */
  lemma AfterFirstRange(c: Chunk, sizes: seq<int>)
    requires c != [] && Ascending(c) && forall j | 0 <= j < |c| :: Inside(sizes, c[j])
    ensures var n := c[0].endOffset - c[0].startOffset;
            && 0 < n <= |ChunkAddrs(c)| && ChunkAddrs(c)[n..] == ChunkAddrs(c[1..])
            && (n < |ChunkAddrs(c)| ==> |c| > 1 && ChunkAddrs(c)[n].file > c[0].fileIndex)
  {
    assert Inside(sizes, c[0]);
    if |c| > 1 {
      FirstAddr(c[1..], sizes);
    }
  }

  lemma {:induction false} SameFirstRange(sizes: seq<int>, a: Chunk, b: Chunk)
    requires a != [] && b != []
    requires Ascending(a) && Ascending(b)
    requires forall j | 0 <= j < |a| :: Inside(sizes, a[j])
    requires forall j | 0 <= j < |b| :: Inside(sizes, b[j])
    requires ChunkAddrs(a) <= ChunkAddrs(b)
    requires ChunkAddrs(a) == ChunkAddrs(b) || EndsItsFile(sizes, a[0])
    ensures a[0] == b[0]
  {
    hide ChunkAddrs, Ascending, EndsItsFile;
    FirstAddr(a, sizes);
    FirstAddr(b, sizes);
    AfterFirstRange(a, sizes);
    AfterFirstRange(b, sizes);
    assert forall k | 0 <= k < |ChunkAddrs(a)| :: ChunkAddrs(a)[k] == ChunkAddrs(b)[k];
    if a[0].endOffset < b[0].endOffset {
      EndsInside(sizes, a[0], b[0]);
    }
  }

  lemma EndsInside(sizes: seq<int>, r: FileRange, q: FileRange)
    requires Inside(sizes, q) && r.fileIndex == q.fileIndex && r.endOffset < q.endOffset
    ensures !EndsItsFile(sizes, r)
  {
  }

  /** A chunk is determined by its bytes; if all its files end, even by a prefix of a longer chunk. */
  lemma {:induction false} ChunkPrefix(sizes: seq<int>, a: Chunk, b: Chunk)
    requires Ascending(a) && Ascending(b)
    requires forall j | 0 <= j < |a| :: Inside(sizes, a[j])
    requires forall j | 0 <= j < |b| :: Inside(sizes, b[j])
    requires ChunkAddrs(a) <= ChunkAddrs(b)
    requires ChunkAddrs(a) == ChunkAddrs(b) || forall j | 0 <= j < |a| :: EndsItsFile(sizes, a[j])
    ensures a <= b
    decreases |a|
  {
    if a != [] {
      FirstAddr(a, sizes);
      assert b != [];
      hide ChunkAddrs, EndsItsFile;
      SameFirstRange(sizes, a, b);
      AfterFirstRange(a, sizes);
      AfterFirstRange(b, sizes);
      assert ChunkAddrs(a[1..]) <= ChunkAddrs(b[1..]);
      ChunkPrefix(sizes, a[1..], b[1..]);
      assert a == [a[0]] + a[1..] && b == [b[0]] + b[1..];
    }
  }

  /** `GreedyPlan` of the bytes that some chunks in front have left over. */
  ghost predicate GreedyTail(sizes: seq<int>, chunkSize: int, maxFiles: int, chunks: seq<Chunk>) {
    && (forall c | 0 <= c < |chunks| :: WellPacked(sizes, chunkSize, maxFiles, chunks[c]))
    && (forall c | 0 <= c < |chunks| - 1 :: Closed(chunkSize, maxFiles, chunks[c]))
  }

  lemma NonEmpty(sizes: seq<int>, chunkSize: int, maxFiles: int, p: seq<Chunk>)
    requires GreedyTail(sizes, chunkSize, maxFiles, p) && p != []
    ensures PlanAddrs(p) == ChunkAddrs(p[0]) + PlanAddrs(p[1..])
    ensures 0 < |ChunkAddrs(p[0])| <= |PlanAddrs(p)|
    ensures GreedyTail(sizes, chunkSize, maxFiles, p[1..])
    ensures |ChunkAddrs(p[0])| < |PlanAddrs(p)| ==> |p| > 1
  {
    assert WellPacked(sizes, chunkSize, maxFiles, p[0]);
    FirstAddr(p[0], sizes);
  }

  lemma SameFirstChunk(sizes: seq<int>, chunkSize: int, maxFiles: int, p: seq<Chunk>, q: seq<Chunk>)
    requires GreedyTail(sizes, chunkSize, maxFiles, p) && GreedyTail(sizes, chunkSize, maxFiles, q)
    requires p != [] && q != [] && PlanAddrs(p) == PlanAddrs(q)
    requires |ChunkAddrs(p[0])| <= |ChunkAddrs(q[0])|
    ensures p[0] == q[0]
  {
    NonEmpty(sizes, chunkSize, maxFiles, p);
    NonEmpty(sizes, chunkSize, maxFiles, q);
    var x, y := ChunkAddrs(p[0]), ChunkAddrs(q[0]);
    assert x == PlanAddrs(p)[..|x|] && y == PlanAddrs(q)[..|y|];
    assert x == y[..|x|];
    assert |x| < |y| ==> Closed(chunkSize, maxFiles, p[0]);
    SameChunk(sizes, chunkSize, maxFiles, p[0], q[0]);
  }

  /** Two well-packed chunks, one a prefix of the other, and the shorter one closed: no difference. */
  lemma SameChunk(sizes: seq<int>, chunkSize: int, maxFiles: int, a: Chunk, b: Chunk)
    requires WellPacked(sizes, chunkSize, maxFiles, a) && WellPacked(sizes, chunkSize, maxFiles, b)
    requires ChunkAddrs(a) <= ChunkAddrs(b)
    requires |ChunkAddrs(a)| < |ChunkAddrs(b)| ==> Closed(chunkSize, maxFiles, a)
    ensures a == b
  {
    hide ChunkAddrs;
    ChunkPrefix(sizes, a, b);
    if |ChunkAddrs(a)| == |ChunkAddrs(b)| {
      ChunkPrefix(sizes, b, a);
    }
  }

  lemma {:induction false} TailIsUnique(sizes: seq<int>, chunkSize: int, maxFiles: int, p: seq<Chunk>, q: seq<Chunk>)
    requires GreedyTail(sizes, chunkSize, maxFiles, p) && GreedyTail(sizes, chunkSize, maxFiles, q)
    requires PlanAddrs(p) == PlanAddrs(q)
    ensures p == q
    decreases |p|
  {
    if p == [] || q == [] {
      if p != [] { NonEmpty(sizes, chunkSize, maxFiles, p); }
      if q != [] { NonEmpty(sizes, chunkSize, maxFiles, q); }
    } else {
      if |ChunkAddrs(p[0])| <= |ChunkAddrs(q[0])| {
        SameFirstChunk(sizes, chunkSize, maxFiles, p, q);
      } else {
        SameFirstChunk(sizes, chunkSize, maxFiles, q, p);
      }
      NonEmpty(sizes, chunkSize, maxFiles, p);
      NonEmpty(sizes, chunkSize, maxFiles, q);
      assert PlanAddrs(p[1..]) == PlanAddrs(p)[|ChunkAddrs(p[0])|..] == PlanAddrs(q[1..]);
      TailIsUnique(sizes, chunkSize, maxFiles, p[1..], q[1..]);
      assert p == [p[0]] + p[1..] && q == [q[0]] + q[1..];
    }
  }

  /** The declarative contract of `BuildChunks` leaves no choice: there is one greedy plan. */
  lemma GreedyPlanIsUnique(sizes: seq<int>, chunkSize: int, maxFiles: int, p: seq<Chunk>, q: seq<Chunk>)
    requires GreedyPlan(sizes, chunkSize, maxFiles, p) && GreedyPlan(sizes, chunkSize, maxFiles, q)
    ensures p == q
  {
    TailIsUnique(sizes, chunkSize, maxFiles, p, q);
  }

  // Partition ----------------------------------------------------------------

  ghost predicate NoDuplicates<T>(s: seq<T>) {
    forall j, k | 0 <= j < k < |s| :: s[j] != s[k]
  }

  ghost predicate IsFileAddr(sizes: seq<int>, a: Addr) {
    a.file < |sizes| && 0 <= a.offset < sizes[a.file]
  }

  lemma {:induction false} FileAddrsListEachOnce(sizes: seq<int>, n: nat)
    requires n <= |sizes|
    ensures NoDuplicates(FileAddrs(sizes, n))
    ensures forall a :: a in FileAddrs(sizes, n) <==> a.file < n && IsFileAddr(sizes, a)
  {
    if n > 0 {
      FileAddrsListEachOnce(sizes, n - 1);
      var front, last := FileAddrs(sizes, n - 1), Span(n - 1, 0, sizes[n - 1]);
      forall a: Addr
        ensures a in front + last <==> a.file < n && IsFileAddr(sizes, a)
      {
        if a.file == n - 1 && IsFileAddr(sizes, a) {
          assert last[a.offset] == a;
        }
      }
    }
  }

  lemma TwiceInMultiset<T>(t: seq<T>, j: nat, k: nat)
    requires j < k < |t| && t[j] == t[k]
    ensures multiset(t)[t[j]] >= 2
  {
    assert t == t[..k] + t[k..];
    assert t[j] in t[..k] && t[k] in t[k..];
    assert multiset(t) == multiset(t[..k]) + multiset(t[k..]);
  }

  lemma {:induction false} OnceInMultiset<T>(s: seq<T>, x: T)
    requires NoDuplicates(s)
    ensures multiset(s)[x] <= 1
  {
    if s != [] {
      OnceInMultiset(s[1..], x);
      assert s == [s[0]] + s[1..];
      assert s[0] !in multiset(s[1..]);
    }
  }

  ghost predicate Precedes(a: Addr, b: Addr) {
    a.file < b.file || (a.file == b.file && a.offset < b.offset)
  }

  /** `FileAddrs` is every byte of the files, in file order and from each file's start to its end. */
  lemma {:induction false} FileAddrsInOrder(sizes: seq<int>, n: nat)
    requires n <= |sizes|
    ensures forall j, k | 0 <= j < k < |FileAddrs(sizes, n)| :: Precedes(FileAddrs(sizes, n)[j], FileAddrs(sizes, n)[k])
    ensures forall a :: a in FileAddrs(sizes, n) <==> a.file < n && IsFileAddr(sizes, a)
  {
    FileAddrsListEachOnce(sizes, n);
    if n > 0 {
      FileAddrsInOrder(sizes, n - 1);
      var front, last, all := FileAddrs(sizes, n - 1), Span(n - 1, 0, sizes[n - 1]), FileAddrs(sizes, n);
      assert all == front + last;
      hide FileAddrs;
      forall j, k | 0 <= j < k < |all| ensures Precedes(all[j], all[k]) {
        if j < |front| { assert all[j] == front[j] && front[j] in front; }
      }
    }
  }

  /** The chunks hold disjoint bytes, none of them twice, and together all bytes of all files. */
  ghost predicate Partition(sizes: seq<int>, plan: seq<Chunk>) {
    && (forall c | 0 <= c < |plan| :: NoDuplicates(ChunkAddrs(plan[c])))
    && (forall c, d, a | 0 <= c < |plan| && 0 <= d < |plan| &&
          a in ChunkAddrs(plan[c]) && a in ChunkAddrs(plan[d]) :: c == d)
    && (forall c, a | 0 <= c < |plan| && a in ChunkAddrs(plan[c]) :: IsFileAddr(sizes, a))
    && (forall a | IsFileAddr(sizes, a) :: InSomeChunk(plan, a))
  }

  ghost predicate InSomeChunk(plan: seq<Chunk>, a: Addr) {
    exists c :: 0 <= c < |plan| && a in ChunkAddrs(plan[c])
  }

  lemma {:induction false} PlanMembers(plan: seq<Chunk>, a: Addr)
    ensures a in PlanAddrs(plan) <==> InSomeChunk(plan, a)
  {
    if plan != [] {
      PlanMembers(plan[1..], a);
      if InSomeChunk(plan, a) {
        var c :| 0 <= c < |plan| && a in ChunkAddrs(plan[c]);
        if c > 0 { assert a in ChunkAddrs(plan[1..][c - 1]); }
      }
      if InSomeChunk(plan[1..], a) {
        var c :| 0 <= c < |plan[1..]| && a in ChunkAddrs(plan[1..][c]);
        assert a in ChunkAddrs(plan[c + 1]);
      } else if a in ChunkAddrs(plan[0]) {
        assert InSomeChunk(plan, a);
      }
    }
  }

  lemma SplitDuplicates<T(!new)>(a: seq<T>, b: seq<T>)
    requires NoDuplicates(a + b)
    ensures NoDuplicates(a) && NoDuplicates(b)
    ensures forall x :: !(x in a && x in b)
  {
    forall j, k | 0 <= j < k < |a| ensures a[j] != a[k] { assert (a + b)[j] != (a + b)[k]; }
    forall j, k | 0 <= j < k < |b| ensures b[j] != b[k] { assert (a + b)[|a| + j] != (a + b)[|a| + k]; }
    forall j, k | 0 <= j < |a| && 0 <= k < |b| ensures a[j] != b[k] {
      assert (a + b)[j] != (a + b)[|a| + k];
    }
  }

  lemma {:induction false} ChunksAreDisjoint(plan: seq<Chunk>)
    requires NoDuplicates(PlanAddrs(plan))
    ensures forall c | 0 <= c < |plan| :: NoDuplicates(ChunkAddrs(plan[c]))
    ensures forall c, d, a | 0 <= c < d < |plan| ::
              !(a in ChunkAddrs(plan[c]) && a in ChunkAddrs(plan[d]))
  {
    if plan != [] {
      SplitDuplicates(ChunkAddrs(plan[0]), PlanAddrs(plan[1..]));
      ChunksAreDisjoint(plan[1..]);
      forall c | 0 <= c < |plan| ensures NoDuplicates(ChunkAddrs(plan[c])) {
        if c > 0 { assert plan[c] == plan[1..][c - 1]; }
      }
      forall c, d, a | 0 <= c < d < |plan|
        ensures !(a in ChunkAddrs(plan[c]) && a in ChunkAddrs(plan[d]))
      {
        assert plan[d] == plan[1..][d - 1];
        PlanMembers(plan[1..], a);
        if c > 0 { assert plan[c] == plan[1..][c - 1]; }
      }
    }
  }

  lemma TilingIsPartition(sizes: seq<int>, maxFiles: int, plan: seq<Chunk>)
    requires Tiling(sizes, maxFiles, plan)
    ensures Partition(sizes, plan)
  {
    FileAddrsListEachOnce(sizes, |sizes|);
    ChunksAreDisjoint(plan);
    forall c, a | 0 <= c < |plan| && a in ChunkAddrs(plan[c]) ensures IsFileAddr(sizes, a) {
      PlanMembers(plan, a);
      assert InSomeChunk(plan, a);
    }
    forall a | IsFileAddr(sizes, a) ensures InSomeChunk(plan, a) {
      PlanMembers(plan, a);
    }
  }

  // Counting -----------------------------------------------------------------

  lemma {:induction false} FiniteBelow(s: set<nat>, n: nat)
    requires forall x | x in s :: x < n
    ensures |s| <= n
  {
    if n > 0 {
      FiniteBelow(s - {n - 1}, n - 1);
      assert s <= (s - {n - 1}) + {n - 1};
    } else {
      assert s == {};
    }
  }

  function Elements(s: seq<nat>): set<nat> {
    set x | x in s
  }

  lemma {:induction false} DistinctSize(s: seq<nat>)
    requires NoDuplicates(s)
    ensures |Elements(s)| == |s|
  {
    if s != [] {
      var front, last := s[..|s| - 1], s[|s| - 1];
      DistinctSize(front);
      assert s == front + [last];
      assert last !in front;
      assert Elements(s) == Elements(front) + {last};
    }
  }
}
