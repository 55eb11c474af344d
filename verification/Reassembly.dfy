/** Reading chunks from one storage and writing them to another, in any order and with failures. */
module Reassembly {
  import opened Names
  import opened Planning
  import opened Plans
  import opened Storing
  import opened ChunkReading
  import opened ChunkWriting

  /** One call of `WriteChunk`: the bytes that reached the storage before it returned. */
  datatype Attempt = Attempt(chunk: nat, data: seq<byte>)

  ghost predicate IsAttempt(plan: seq<Chunk>, a: Attempt) {
    a.chunk < |plan| && |a.data| <= |ChunkAddrs(plan[a.chunk])|
  }

  function Replay(plan: seq<Chunk>, store: Store, attempts: seq<Attempt>): Store
    requires forall k | 0 <= k < |attempts| :: IsAttempt(plan, attempts[k])
  {
    if attempts == [] then store
    else
      var a, n := attempts[|attempts| - 1], |attempts| - 1;
      assert IsAttempt(plan, attempts[n]);
      Put(Replay(plan, store, attempts[..n]), ChunkAddrs(plan[a.chunk])[..|a.data|], a.data)
  }

  /** The last attempt on `chunk` delivered all of its source bytes. */
  ghost predicate EndsWell(plan: seq<Chunk>, source: Store, attempts: seq<Attempt>, chunk: nat)
    requires chunk < |plan|
  {
    attempts != [] &&
    var a := attempts[|attempts| - 1];
    if a.chunk == chunk then a.data == Content(source, ChunkAddrs(plan[chunk]))
    else EndsWell(plan, source, attempts[..|attempts| - 1], chunk)
  }

  /** Whatever other chunks do afterwards, a chunk keeps the bytes of its last attempt. */
  lemma {:induction false} ChunkSurvives(sizes: seq<int>, plan: seq<Chunk>, source: Store, store: Store,
                                         attempts: seq<Attempt>, chunk: nat)
    requires Partition(sizes, plan) && chunk < |plan|
    requires forall k | 0 <= k < |attempts| :: IsAttempt(plan, attempts[k])
    requires EndsWell(plan, source, attempts, chunk)
    ensures Content(Replay(plan, store, attempts), ChunkAddrs(plan[chunk])) == Content(source, ChunkAddrs(plan[chunk]))
  {
    var n := |attempts| - 1;
    var a, before := attempts[n], Replay(plan, store, attempts[..n]);
    var at, own := ChunkAddrs(plan[a.chunk])[..|a.data|], ChunkAddrs(plan[chunk]);
    if a.chunk == chunk {
      assert at == own && NoDuplicates(ChunkAddrs(plan[chunk]));
      hide *;
      ReadBack(before, own, a.data);
    } else {
      assert forall x | x in at :: x in ChunkAddrs(plan[a.chunk]);
      assert forall x | x in own :: x !in at;
      ChunkSurvives(sizes, plan, source, store, attempts[..n], chunk);
      hide *;
      ReadDisjoint(before, at, a.data, own);
    }
  }

  /** Chunks in any order, each tried any number of times, each failed try leaving any prefix of any
      bytes behind: once the last try of every chunk was complete, every file equals its source. */
  lemma AnyOrderReassembles(sizes: seq<int>, plan: seq<Chunk>, source: Store, store: Store, attempts: seq<Attempt>)
    requires Partition(sizes, plan)
    requires forall k | 0 <= k < |attempts| :: IsAttempt(plan, attempts[k])
    requires forall c | 0 <= c < |plan| :: EndsWell(plan, source, attempts, c)
    ensures forall a | IsFileAddr(sizes, a) :: At(Replay(plan, store, attempts), a) == At(source, a)
  {
    forall a | IsFileAddr(sizes, a)
      ensures At(Replay(plan, store, attempts), a) == At(source, a)
    {
      var c :| 0 <= c < |plan| && a in ChunkAddrs(plan[c]);
      assert EndsWell(plan, source, attempts, c);
      hide Partition, EndsWell, Replay;
      ChunkSurvives(sizes, plan, source, store, attempts, c);
      var k :| 0 <= k < |ChunkAddrs(plan[c])| && ChunkAddrs(plan[c])[k] == a;
      assert Content(Replay(plan, store, attempts), ChunkAddrs(plan[c]))[k] == Content(source, ChunkAddrs(plan[c]))[k];
    }
  }

  /** The checksum cache of the chunk manager (src/transfer/chunk_manager.go:93-136). */
  class ChecksumCache {
    const plan: seq<Chunk>
    const hash: seq<byte> -> nat
    var checksums: seq<nat>

    constructor (plan: seq<Chunk>, hash: seq<byte> -> nat)
      ensures this.plan == plan && this.hash == hash && checksums == seq(|plan|, _ => 0)
    {
      this.plan, this.hash, checksums := plan, hash, seq(|plan|, _ => 0);
    }

    /** Every entry is either empty or the hash of its chunk's source bytes. */
    ghost predicate Agrees(source: Store)
      reads this
    {
      |checksums| == |plan| &&
      forall c | 0 <= c < |plan| ::
        checksums[c] == 0 || checksums[c] == hash(Content(source, ChunkAddrs(plan[c])))
    }

    /** From a storage that holds the chunk's source bytes: the source itself, or a destination whose
        chunk is Done. A digest of 0 is never cached, only computed again. */
    method ComputeChunkChecksum(content: Store, chunk: nat, ghost source: Store, sizes: nat -> nat, ios: nat -> Io)
      returns (checksum: nat, ok: bool)
      requires Agrees(source) && chunk < |plan| && forall k :: sizes(k) > 0
      requires forall j | 0 <= j < |plan[chunk]| :: plan[chunk][j].startOffset < plan[chunk][j].endOffset
      requires Content(content, ChunkAddrs(plan[chunk])) == Content(source, ChunkAddrs(plan[chunk]))
      modifies this
      ensures Agrees(source)
      ensures ok ==> checksum == hash(Content(content, ChunkAddrs(plan[chunk]))) && checksums[chunk] == checksum
      ensures !ok ==> checksum == 0 && checksums == old(checksums)
      ensures old(checksums[chunk]) != 0 ==> ok && checksum == old(checksums[chunk])
      ensures (forall k :: !ios(k).openFails && !ios(k).readFails) ==> ok
      ensures forall c | 0 <= c < |plan| && c != chunk :: checksums[c] == old(checksums[c])
    {
      if checksums[chunk] != 0 {
        return checksums[chunk], true;
      }
      var data, err := Copy(content, plan[chunk], sizes, ios);
      if err.Failed? {
        return 0, false;
      }
      checksum, ok := hash(data), true;
      checksums := checksums[chunk := checksum];
    }

    method SetChunkChecksum(chunk: nat, checksum: nat)
      requires chunk < |checksums|
      modifies this
      ensures checksums == old(checksums)[chunk := checksum]
    {
      checksums := checksums[chunk := checksum];
    }
  }

  /** A worker of the local downloader (src/downloader.go:236-253): the chunk reader's stream, cut
      short wherever the file system fails, goes through `WriteChunk`. */
  method TransferChunk(manager: ChunkManager, cache: ChecksumCache, source: Store, dst: Storage, chunk: nat,
                       verify: bool, sizes: nat -> nat, ios: nat -> Io)
    returns (ok: bool, ghost n: nat)
    requires manager.Valid() && chunk < |manager.plan| && manager.plan == cache.plan && manager.hash == cache.hash
    requires cache.Agrees(source) && forall k :: sizes(k) > 0
    modifies manager, cache, dst
    ensures manager.Valid() && cache.Agrees(source)
    ensures var at := ChunkAddrs(manager.plan[chunk]);
            && n <= |at| && (ok ==> n == |at|)
            && Scattered(manager.plan[chunk], n, Content(source, at), old(dst.bytes), dst.bytes, old(manager.tally),
                         manager.tally)
            && dst.bytes == Put(old(dst.bytes), at[..n], Content(source, at)[..n])
            && (ok && verify ==> cache.checksums[chunk] == cache.hash(Content(source, at)))
    ensures (forall k :: !ios(k).openFails && !ios(k).readFails) ==> ok
  {
    var checksum := 0;
    ghost var at := ChunkAddrs(manager.plan[chunk]);
    ghost var whole := Content(source, at);
    n := 0;
    assert dst.bytes == Put(dst.bytes, at[..0], whole[..0]);
    if verify {
      var fine;
      checksum, fine := cache.ComputeChunkChecksum(source, chunk, source, sizes, ios);
      if !fine {
        return false, 0;
      }
    }
    var data, err := Copy(source, manager.plan[chunk], sizes, ios);
    var stream := new Stream(data);
    var length;
    length, ok := manager.WriteChunk(dst, chunk, stream, checksum);
    n := Arriving(manager.plan[chunk], data);
    assert n == |data| <= |at| && data[..n] == data == whole[..n];
    if ok && verify {
      cache.SetChunkChecksum(chunk, checksum);
    }
  }
}
