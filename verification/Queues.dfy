/** The work queue of a downloader (src/transfer/chunk_queue.go). Each method runs under its lock. */
module Queues {

  class ChunkQueue {
    var queue: seq<nat>

    constructor ()
      ensures queue == []
    {
      queue := [];
    }

    method PushBack(index: nat)
      modifies this
      ensures queue == old(queue) + [index]
    {
      queue := queue + [index];
    }

    /** Shuffles the caller's list in place and appends it. */
    method PushShuffledList(indices: array<nat>, random: nat -> nat)
      modifies this, indices
      ensures multiset(indices[..]) == old(multiset(indices[..]))
      ensures queue == old(queue) + indices[..]
    {
      Shuffle(indices, random);
      queue := queue + indices[..];
    }

    /** Appends the index and swaps it with a random element. */
    method PushShuffle(index: nat, random: nat)
      modifies this
      ensures multiset(queue) == old(multiset(queue)) + multiset{index}
      ensures exists k :: 0 <= k < |queue| && queue[k] == index
      ensures |queue| == |old(queue)| + 1
    {
      queue := queue + [index];
      var last := |queue| - 1;
      var k := random % |queue|;
      queue := queue[k := queue[last]][last := queue[k]];
      assert queue[k] == index;
    }

    method Pop() returns (index: nat, ok: bool)
      modifies this
      ensures ok == (old(queue) != [])
      ensures if ok then old(queue) == [index] + queue else queue == old(queue) && index == 0
    {
      if |queue| != 0 {
        index, ok := queue[0], true;
        queue := queue[1..];
      } else {
        index, ok := 0, false;
      }
    }
  }

  /** The library shuffle: every random source gives a permutation. */
  method Shuffle(indices: array<nat>, random: nat -> nat)
    modifies indices
    ensures multiset(indices[..]) == old(multiset(indices[..]))
  {
    var k := indices.Length;
    while k > 1
      invariant 0 <= k <= indices.Length
      invariant multiset(indices[..]) == old(multiset(indices[..]))
    {
      k := k - 1;
      var j := random(k) % (k + 1);
      indices[k], indices[j] := indices[j], indices[k];
    }
  }
}
