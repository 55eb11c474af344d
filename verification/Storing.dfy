/** Stored file contents, addressed by file index and offset (src/storage/local_storage.go). */
module Storing {
  import opened Names
  import opened Planning
  import opened Plans

  /** The bytes of a storage: files are created at their full size before a transfer starts. */
  type Store = map<Addr, byte>

  function At(store: Store, a: Addr): byte {
    if a in store then store[a] else 0
  }

  function Content(store: Store, at: seq<Addr>): (data: seq<byte>)
    ensures |data| == |at| && forall k | 0 <= k < |at| :: data[k] == At(store, at[k])
  {
    seq(|at|, k requires 0 <= k < |at| => At(store, at[k]))
  }

  /** Writes `data` at the addresses `at`, in order. */
  function Put(store: Store, at: seq<Addr>, data: seq<byte>): Store
    requires |at| == |data|
  {
    if at == [] then store
    else Put(store, at[..|at| - 1], data[..|at| - 1])[at[|at| - 1] := data[|at| - 1]]
  }

  lemma {:induction false} PutElsewhere(store: Store, at: seq<Addr>, data: seq<byte>, a: Addr)
    requires |at| == |data| && a !in at
    ensures At(Put(store, at, data), a) == At(store, a)
  {
    if at != [] {
      PutElsewhere(store, at[..|at| - 1], data[..|at| - 1], a);
    }
  }

  lemma {:induction false} PutHere(store: Store, at: seq<Addr>, data: seq<byte>, k: nat)
    requires |at| == |data| && NoDuplicates(at) && k < |at|
    ensures At(Put(store, at, data), at[k]) == data[k]
  {
    if k < |at| - 1 {
      PutHere(store, at[..|at| - 1], data[..|at| - 1], k);
    }
  }

  lemma {:induction false} PutAppend(store: Store, at: seq<Addr>, data: seq<byte>, more: seq<Addr>, bytes: seq<byte>)
    requires |at| == |data| && |more| == |bytes|
    ensures Put(store, at + more, data + bytes) == Put(Put(store, at, data), more, bytes)
  {
    if more == [] {
      assert at + more == at && data + bytes == data;
    } else {
      var n := |more| - 1;
      PutAppend(store, at, data, more[..n], bytes[..n]);
      assert (at + more)[..|at| + n] == at + more[..n];
      assert (data + bytes)[..|at| + n] == data + bytes[..n];
    }
  }

  /** What is written can be read back, and nothing else changes. */
  lemma ReadBack(store: Store, at: seq<Addr>, data: seq<byte>)
    requires |at| == |data| && NoDuplicates(at)
    ensures Content(Put(store, at, data), at) == data
    ensures forall a | a !in at :: At(Put(store, at, data), a) == At(store, a)
  {
    forall k | 0 <= k < |at| ensures Content(Put(store, at, data), at)[k] == data[k] {
      PutHere(store, at, data, k);
    }
    forall a | a !in at ensures At(Put(store, at, data), a) == At(store, a) {
      PutElsewhere(store, at, data, a);
    }
  }

  lemma ReadDisjoint(store: Store, at: seq<Addr>, data: seq<byte>, other: seq<Addr>)
    requires |at| == |data| && forall a | a in other :: a !in at
    ensures Content(Put(store, at, data), other) == Content(store, other)
  {
    forall k | 0 <= k < |other|
      ensures Content(Put(store, at, data), other)[k] == Content(store, other)[k]
    {
      PutElsewhere(store, at, data, other[k]);
    }
  }

  class Storage {
    var bytes: Store

    constructor (bytes: Store)
      ensures this.bytes == bytes
    {
      this.bytes := bytes;
    }

    /** `io.CopyN` of one range from the reader: it fails when the stream ends first, and what arrived
        before that is already stored. */
    method Write(range: FileRange, reader: Stream) returns (n: int, ok: bool)
      requires range.startOffset <= range.endOffset
      modifies this, reader
      ensures var size, got := range.endOffset - range.startOffset, old(reader.rest);
              && ok == (|got| >= size) && n == (if ok then size else |got|)
              && bytes == Put(old(bytes), RangeAddrs(range)[..n], got[..n])
              && reader.rest == got[n..]
    {
      var size := range.endOffset - range.startOffset;
      ok := |reader.rest| >= size;
      n := if ok then size else |reader.rest|;
      bytes := Put(bytes, RangeAddrs(range)[..n], reader.rest[..n]);
      reader.rest := reader.rest[n..];
    }
  }

  /** A download stream: the bytes that still arrive before it ends or breaks. */
  class Stream {
    var rest: seq<byte>

    constructor (data: seq<byte>)
      ensures rest == data
    {
      rest := data;
    }
  }
}
