/** The downloader that copies from the node's own source (src/local_downloader.go). */
module LocalDownloads {
  import opened Nodes
  import opened PeerLists
  import opened Plans
  import opened Queues

  /** Its queue starts with every chunk once, in a random order: what `Nodes.Spawn` asks for. */
  method NewLocalDownloader(chunkCount: nat, random: nat -> nat) returns (queue: ChunkQueue)
    ensures fresh(queue) && IsListOfAll(queue.queue, chunkCount)
  {
    queue := new ChunkQueue();
    var indices := new nat[chunkCount];
    var i := 0;
    while i < chunkCount
      invariant 0 <= i <= chunkCount && queue.queue == []
      invariant forall k | 0 <= k < i :: indices[k] == k
    {
      indices[i] := i;
      i := i + 1;
    }
    ghost var inOrder := indices[..];
    queue.PushShuffledList(indices, random);
    assert queue.queue == indices[..];
    ShuffledListOfAll(inOrder, queue.queue, chunkCount);
  }

  lemma ShuffledListOfAll(inOrder: seq<nat>, shuffled: seq<nat>, n: nat)
    requires |inOrder| == n && (forall k | 0 <= k < n :: inOrder[k] == k) && multiset(shuffled) == multiset(inOrder)
    ensures IsListOfAll(shuffled, n)
  {
    PermutationKeeps(inOrder, shuffled);
    assert |shuffled| == |multiset(shuffled)| == |multiset(inOrder)|;
    forall i | 0 <= i < n ensures i in shuffled { assert inOrder[i] in Elements(inOrder) && i in Elements(shuffled); }
    forall k | 0 <= k < |shuffled| ensures shuffled[k] < n { assert shuffled[k] in Elements(shuffled); }
  }
}
