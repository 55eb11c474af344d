/** File names and the in-place sort that `BuildChunks` starts with (src/types/chunk.go). */
module Names {

  newtype byte = x: int | 0 <= x < 256

  /** Go compares strings byte by byte, so a name is its byte string. */
  type Name = seq<byte>

  predicate Less(a: Name, b: Name) {
    if b == [] then false
    else if a == [] then true
    else a[0] < b[0] || (a[0] == b[0] && Less(a[1..], b[1..]))
  }

  /** The order is byte by byte: a name is less than those it begins, and otherwise the first byte at
      which two names differ decides. */
  lemma {:induction false} LessIff(a: Name, b: Name)
    ensures Less(a, b) <==> a < b || exists k :: 0 <= k < |a| && k < |b| && a[..k] == b[..k] && a[k] < b[k]
  {
    if a != [] && b != [] {
      LessIff(a[1..], b[1..]);
      if a[0] == b[0] {
        SameFirstByte(a, b);
      } else {
        FirstBytesDiffer(a, b);
      }
    }
  }

  lemma FirstBytesDiffer(a: Name, b: Name)
    requires a != [] && b != [] && a[0] != b[0]
    ensures !(a < b)
    ensures (exists k :: 0 <= k < |a| && k < |b| && a[..k] == b[..k] && a[k] < b[k]) <==> a[0] < b[0]
  {
    assert forall k | 0 < k < |a| && k < |b| :: a[..k][0] == a[0] && b[..k][0] == b[0];
    if a[0] < b[0] { assert a[..0] == b[..0] && a[0] < b[0]; }
  }

  lemma SameFirstByte(a: Name, b: Name)
    requires a != [] && b != [] && a[0] == b[0]
    ensures a[1..] < b[1..] <==> a < b
    ensures (exists k :: 0 <= k < |a[1..]| && k < |b[1..]| && a[1..][..k] == b[1..][..k] && a[1..][k] < b[1..][k])
       <==> (exists k :: 0 <= k < |a| && k < |b| && a[..k] == b[..k] && a[k] < b[k])
  {
    assert a == [a[0]] + a[1..] && b == [b[0]] + b[1..];
    if k :| 0 <= k < |a[1..]| && k < |b[1..]| && a[1..][..k] == b[1..][..k] && a[1..][k] < b[1..][k] {
      assert a[..k + 1] == [a[0]] + a[1..][..k] && b[..k + 1] == [b[0]] + b[1..][..k];
      assert a[k + 1] < b[k + 1];
    }
    if k :| 0 <= k < |a| && k < |b| && a[..k] == b[..k] && a[k] < b[k] {
      assert k > 0;
      assert a[1..][..k - 1] == a[..k][1..] && b[1..][..k - 1] == b[..k][1..];
      assert a[1..][k - 1] < b[1..][k - 1];
    }
  }

  lemma {:induction false} LessIsTotal(a: Name, b: Name)
    ensures Less(a, b) || Less(b, a) || a == b
    ensures !(Less(a, b) && Less(b, a))
  {
    if a != [] && b != [] {
      LessIsTotal(a[1..], b[1..]);
      assert a == [a[0]] + a[1..] && b == [b[0]] + b[1..];
    }
  }

  lemma {:induction false} LessIsTransitive(a: Name, b: Name, c: Name)
    requires !Less(b, a) && !Less(c, b)
    ensures !Less(c, a)
  {
    if a != [] && b != [] && c != [] {
      if a[0] == b[0] == c[0] {
        LessIsTransitive(a[1..], b[1..], c[1..]);
      }
    }
  }

  /** A file of the manifest (src/types/entry.go): an array of these is a Go slice of structs. */
  datatype FileEntry = FileEntry(name: Name, size: int, perm: int, remaining: int)

  ghost predicate SortedByName(files: seq<FileEntry>) {
    forall i, j | 0 <= i < j < |files| :: !Less(files[j].name, files[i].name)
  }

  ghost predicate DistinctNames(files: seq<FileEntry>) {
    forall i, j | 0 <= i < j < |files| :: files[i].name != files[j].name
  }

  lemma SameHead(a: seq<FileEntry>, b: seq<FileEntry>)
    requires a != [] && b != []
    requires SortedByName(a) && SortedByName(b) && DistinctNames(a)
    requires multiset(a) == multiset(b)
    ensures a[0] == b[0]
  {
    assert a[0] in multiset(b) && b[0] in multiset(a);
    var j :| 0 <= j < |b| && b[j] == a[0];
    var k :| 0 <= k < |a| && a[k] == b[0];
    LessIsTotal(a[0].name, b[0].name);
    assert a[0].name == b[0].name;
    assert k == 0;
  }

  /** Equal contents, sorted, no name twice: only one such sequence exists. */
  lemma {:induction false} SortedIsUnique(a: seq<FileEntry>, b: seq<FileEntry>)
    requires SortedByName(a) && SortedByName(b) && DistinctNames(a)
    requires multiset(a) == multiset(b)
    ensures a == b
    decreases |a|
  {
    assert |a| == |multiset(a)| == |multiset(b)| == |b|;
    if a != [] {
      SameHead(a, b);
      assert SortedByName(a[1..]) && SortedByName(b[1..]) && DistinctNames(a[1..]);
      hide SortedByName, DistinctNames;
      HeadAndTail(a);
      HeadAndTail(b);
      SortedIsUnique(a[1..], b[1..]);
    }
  }

  lemma HeadAndTail(a: seq<FileEntry>)
    requires a != []
    ensures a == [a[0]] + a[1..] && multiset(a[1..]) == multiset(a) - multiset{a[0]}
  {
    assert a == [a[0]] + a[1..];
  }

  /** Sorted up to `k`, except that the element at `hole` may be smaller than those before it. */
  ghost predicate SortedExcept(files: seq<FileEntry>, hole: nat) {
    forall i, j | 0 <= i < j < |files| && j != hole :: !Less(files[j].name, files[i].name)
  }

  lemma Settled(files: seq<FileEntry>, hole: nat)
    requires hole < |files| && SortedExcept(files, hole)
    requires hole > 0 ==> !Less(files[hole].name, files[hole - 1].name)
    ensures SortedByName(files)
  {
    forall i | 0 <= i < hole
      ensures !Less(files[hole].name, files[i].name)
    {
      if i < hole - 1 {
        LessIsTransitive(files[i].name, files[hole - 1].name, files[hole].name);
      }
    }
  }

  lemma Swapped(files: seq<FileEntry>, hole: nat)
    requires 0 < hole < |files| && SortedExcept(files, hole)
    requires Less(files[hole].name, files[hole - 1].name)
    ensures SortedExcept(files[hole := files[hole - 1]][hole - 1 := files[hole]], hole - 1)
  {
    LessIsTotal(files[hole].name, files[hole - 1].name);
  }

  method SwapWithPrevious(files: array<FileEntry>, j: nat)
    requires 0 < j < files.Length
    modifies files
    ensures files[..] == old(files[..][j := files[j - 1]][j - 1 := files[j]])
    ensures multiset(files[..]) == old(multiset(files[..]))
  {
    files[j], files[j - 1] := files[j - 1], files[j];
  }

  /** The element at `k` sinks to its place among the sorted elements before it. */
  method Sink(files: array<FileEntry>, k: nat)
    requires k < files.Length
    requires SortedByName(files[..k])
    modifies files
    ensures SortedByName(files[..k + 1])
    ensures multiset(files[..]) == old(multiset(files[..]))
  {
    var j := k;
    assert SortedExcept(files[..k + 1], k);
    while j > 0 && Less(files[j].name, files[j - 1].name)
      invariant 0 <= j <= k
      invariant multiset(files[..]) == old(multiset(files[..]))
      invariant SortedExcept(files[..k + 1], j)
    {
      ghost var before := files[..k + 1];
      Swapped(before, j);
      SwapWithPrevious(files, j);
      assert files[..k + 1] == before[j := before[j - 1]][j - 1 := before[j]];
      j := j - 1;
    }
    Settled(files[..k + 1], j);
  }

  /** The library sort, ascending by name: any order of equal names would do. */
  method SortByName(files: array<FileEntry>)
    modifies files
    ensures SortedByName(files[..])
    ensures multiset(files[..]) == old(multiset(files[..]))
  {
    var k := 0;
    while k < files.Length
      invariant 0 <= k <= files.Length
      invariant SortedByName(files[..k])
      invariant multiset(files[..]) == old(multiset(files[..]))
    {
      Sink(files, k);
      k := k + 1;
    }
    assert files[..k] == files[..];
  }
}
