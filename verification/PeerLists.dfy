/** What a node knows about a peer's chunks, and how polling fills the peer's queue
    (src/peer_downloader.go). */
module PeerLists {
  import opened Options
  import opened Plans
  import opened Queues

  /** The answer to `/chunk` (src/available_list.go). */
  datatype AvailableList = AvailableList(timestamp: nat, isCompleted: bool, indices: seq<nat>)

  function AllBelow(n: nat): (r: set<nat>)
    ensures forall x: nat :: x in r <==> x < n
  {
    if n == 0 then {} else AllBelow(n - 1) + {n - 1}
  }

  lemma {:induction false} AllBelowCount(n: nat)
    ensures |AllBelow(n)| == n
  {
    if n > 0 {
      AllBelowCount(n - 1);
    }
  }

  lemma SameSizeSubset(a: set<nat>, b: set<nat>)
    requires a <= b && |a| == |b|
    ensures a == b
  {
    assert |b - a| == |b| - |a|;
  }

  lemma TakeOneMore(s: seq<nat>, k: nat)
    requires k < |s|
    ensures forall i: nat :: i in s[..k + 1] <==> i in s[..k] || i == s[k]
  {
    assert s[..k + 1] == s[..k] + [s[k]];
  }

  /** A delivered answer of a completed peer speaks of every chunk, another one of those it lists. */
  ghost predicate Speaks(answer: Option<AvailableList>, n: nat, i: nat) {
    answer.Some? && if answer.value.isCompleted then i < n else i in answer.value.indices
  }

  /** A delivered answer lists chunks of the plan. */
  predicate Indices(answer: Option<AvailableList>, n: nat) {
    answer.Some? ==> forall k | 0 <= k < |answer.value.indices| :: answer.value.indices[k] < n
  }

  lemma PermutationKeeps(s: seq<nat>, t: seq<nat>)
    requires NoDuplicates(s) && multiset(s) == multiset(t)
    ensures NoDuplicates(t) && Elements(t) == Elements(s)
  {
    forall x ensures x in s <==> x in t {
      assert x in multiset(s) <==> x in multiset(t);
    }
    forall j, k | 0 <= j < k < |t| && t[j] == t[k] ensures false {
      TwiceInMultiset(t, j, k);
      OnceInMultiset(s, t[j]);
    }
  }

  /** What `Nodes` asks of a poll: the list that polling puts into the queue, in whatever order, holds no
      index twice and none that polling has put there before. */
  lemma EnqueuedOnce(before: seq<nat>, after: seq<nat>, list: seq<nat>)
    requires NoDuplicates(after) && before <= after && multiset(list) == multiset(after[|before|..])
    ensures NoDuplicates(list) && Elements(after) == Elements(before) + Elements(list)
    ensures forall i | i in list :: i !in before
  {
    assert after == before + after[|before|..];
    SplitDuplicates(before, after[|before|..]);
    PermutationKeeps(after[|before|..], list);
    assert forall i | i in list :: i in Elements(list);
  }

  /** The chunks known after the first `a` polls are those known before and those an answer spoke of. */
  ghost predicate Heard(before: seq<nat>, polled: seq<nat>, answers: seq<Option<AvailableList>>, a: nat, n: nat) {
    && a <= |answers|
    && forall i: nat :: i in polled <==> i in before || exists k | 0 <= k < a :: Speaks(answers[k], n, i)
  }

  lemma NothingHeard(before: seq<nat>, answers: seq<Option<AvailableList>>, n: nat)
    ensures Heard(before, before, answers, 0, n)
  {
  }

  lemma HeardMore(before: seq<nat>, known: seq<nat>, polled: seq<nat>, answers: seq<Option<AvailableList>>, a: nat, n: nat)
    requires Heard(before, known, answers, a, n) && a < |answers| && forall i: nat | i in known :: i < n
    requires answers[a].None? ==> polled == known
    requires answers[a].Some? && answers[a].value.isCompleted ==> forall i: nat :: i in polled <==> i < n
    requires answers[a].Some? && !answers[a].value.isCompleted ==>
               forall i: nat :: i in polled <==> i in known || i in answers[a].value.indices
    ensures Heard(before, polled, answers, a + 1, n)
  {
    forall i: nat
      ensures i in polled <==> i in before || exists k | 0 <= k < a + 1 :: Speaks(answers[k], n, i)
    {
      assert i in polled <==> i in known || Speaks(answers[a], n, i);
    }
  }

  lemma HeardAll(before: seq<nat>, polled: seq<nat>, answers: seq<Option<AvailableList>>, n: nat)
    requires Heard(before, polled, answers, |answers|, n)
    ensures forall i: nat :: i in polled <==> i in before || exists a | 0 <= a < |answers| ::
              answers[a].Some? && if answers[a].value.isCompleted then i < n else i in answers[a].value.indices
  {
    assert forall i: nat, a | 0 <= a < |answers| :: Speaks(answers[a], n, i) <==>
             answers[a].Some? && if answers[a].value.isCompleted then i < n else i in answers[a].value.indices;
  }

  /** Since `before` and `queued`, polling has marked what is in `polled`, and put `enqueued` into the queue. */
  ghost predicate Filled(before: seq<nat>, polled: seq<nat>, queued: seq<nat>, queue: seq<nat>, enqueued: seq<nat>) {
    && before <= polled && queue == queued + enqueued
    && multiset(enqueued) == multiset(polled[|before|..])
  }

  lemma FilledMore(before: seq<nat>, known: seq<nat>, polled: seq<nat>,
                   queued: seq<nat>, held: seq<nat>, queue: seq<nat>, enqueued: seq<nat>)
    requires Filled(before, known, queued, held, enqueued) && known <= polled && held <= queue
    requires multiset(queue[|held|..]) == multiset(polled[|known|..])
    ensures Filled(before, polled, queued, queue, enqueued + queue[|held|..])
  {
    assert polled[|before|..] == known[|before|..] + polled[|known|..];
  }

  lemma NothingFilled(before: seq<nat>, queued: seq<nat>)
    ensures Filled(before, before, queued, queued, [])
  {
  }

  lemma FilledOnce(before: seq<nat>, polled: seq<nat>, queued: seq<nat>, queue: seq<nat>, enqueued: seq<nat>)
    requires Filled(before, polled, queued, queue, enqueued) && NoDuplicates(polled)
    ensures queue == queued + enqueued && NoDuplicates(enqueued)
    ensures forall i: nat :: i in enqueued <==> i in polled && i !in before
  {
    hide NoDuplicates;
    EnqueuedOnce(before, polled, enqueued);
    forall i: nat ensures i in enqueued <==> i in polled && i !in before {
      assert i in Elements(polled) <==> i in Elements(before) || i in Elements(enqueued);
    }
  }

  class PeerDownloader {
    const queue: ChunkQueue
    const availableChunkList: array<bool>
    var availableChunkCount: int
    var lastUpdatedAt: nat
    var isSelf: bool
    var isSelfInit: bool
    var isValidInit: bool
    var stopped: bool
    var mismatched: bool
    /** Everything that polling has ever put into the queue, in order. */
    ghost var polled: seq<nat>

    /** The chunks marked as ready are those that polling enqueued, each of them once. */
    ghost predicate Valid()
      reads this`polled, this`availableChunkCount, availableChunkList
    {
      && NoDuplicates(polled)
      && (forall c :: c in polled <==> 0 <= c < availableChunkList.Length && availableChunkList[c])
      && availableChunkCount == |polled|
    }

    constructor (chunkCount: nat)
      ensures Valid() && fresh(queue) && fresh(availableChunkList) && availableChunkList.Length == chunkCount
      ensures polled == [] && queue.queue == [] && lastUpdatedAt == 0
      ensures !isSelf && !isSelfInit && !isValidInit && !stopped && !mismatched
    {
      queue := new ChunkQueue();
      availableChunkList := new bool[chunkCount](_ => false);
      availableChunkCount, lastUpdatedAt, polled := 0, 0, [];
      isSelf, isSelfInit, isValidInit, stopped, mismatched := false, false, false, false, false;
    }

    method MarkChunkAsReady(chunkIndex: nat) returns (isNew: bool)
      requires Valid() && chunkIndex < availableChunkList.Length
      modifies this`availableChunkCount, this`polled, availableChunkList
      ensures Valid()
      ensures isNew == (chunkIndex !in old(polled))
      ensures polled == if isNew then old(polled) + [chunkIndex] else old(polled)
    {
      if !availableChunkList[chunkIndex] {
        assert chunkIndex !in polled;
        availableChunkList[chunkIndex] := true;
        availableChunkCount := availableChunkCount + 1;
        polled := polled + [chunkIndex];
        return true;
      }
      return false;
    }

    /** The first loop of `UpdatePeerAvailableList`, for a peer that has completed. */
    method MarkAll() returns (indexList: seq<nat>)
      requires Valid()
      modifies this`availableChunkCount, this`polled, availableChunkList
      ensures Valid() && polled == old(polled) + indexList
      ensures forall i: nat :: i in polled <==> i < availableChunkList.Length
    {
      KnownBelow();
      indexList := [];
      assert polled == old(polled) + indexList;
      var c := 0;
      while c < availableChunkList.Length
        invariant 0 <= c <= availableChunkList.Length && Valid()
        invariant polled == old(polled) + indexList
        invariant forall i: nat :: i in polled <==> i in old(polled) || i < c
      {
        hide Valid, NoDuplicates;
        var isNew := MarkChunkAsReady(c);
        if isNew { indexList := indexList + [c]; }
        c := c + 1;
      }
    }

    /** The second loop: for a peer that is still downloading. */
    method MarkListed(indices: seq<nat>) returns (indexList: seq<nat>)
      requires Valid() && forall k | 0 <= k < |indices| :: indices[k] < availableChunkList.Length
      modifies this`availableChunkCount, this`polled, availableChunkList
      ensures Valid() && polled == old(polled) + indexList
      ensures forall i: nat :: i in polled <==> i in old(polled) || i in indices
    {
      indexList := [];
      assert polled == old(polled) + indexList;
      var k := 0;
      while k < |indices|
        invariant 0 <= k <= |indices| && Valid()
        invariant polled == old(polled) + indexList
        invariant forall i: nat :: i in polled <==> i in old(polled) || i in indices[..k]
      {
        hide Valid, NoDuplicates;
        TakeOneMore(indices, k);
        var isNew := MarkChunkAsReady(indices[k]);
        if isNew { indexList := indexList + [indices[k]]; }
        k := k + 1;
      }
      assert indices[..k] == indices;
    }

    /** One poll: a lost answer changes nothing; a delivered one enqueues exactly the reported chunks
        that were not enqueued before, in some order. */
    method UpdatePeerAvailableList(answer: Option<AvailableList>, random: nat -> nat) returns (ok: bool)
      requires Valid()
      requires Indices(answer, availableChunkList.Length)
      modifies this`lastUpdatedAt, this`availableChunkCount, this`polled, availableChunkList, queue
      ensures Valid() && ok == answer.Some?
      ensures !ok ==> polled == old(polled) && queue.queue == old(queue.queue) && lastUpdatedAt == old(lastUpdatedAt)
      ensures ok ==> lastUpdatedAt == answer.value.timestamp
      ensures ok && answer.value.isCompleted ==> forall i: nat :: i in polled <==> i < availableChunkList.Length
      ensures ok && !answer.value.isCompleted ==>
                forall i: nat :: i in polled <==> i in old(polled) || i in answer.value.indices
      ensures old(polled) <= polled && old(queue.queue) <= queue.queue
      ensures multiset(queue.queue[|old(queue.queue)|..]) == multiset(polled[|old(polled)|..])
    {
      if answer.None? {
        return false;
      }
      hide NoDuplicates, Elements, AllBelow;
      var list := answer.value;
      lastUpdatedAt := list.timestamp;
      var indexList;
      if list.isCompleted {
        indexList := MarkAll();
      } else {
        indexList := MarkListed(list.indices);
      }
      var shuffled := new nat[|indexList|](i requires 0 <= i < |indexList| => indexList[i]);
      assert shuffled[..] == indexList;
      queue.PushShuffledList(shuffled, random);
      ok := true;
    }

    /** Any sequence of polls, lost ones included: each index enters the queue from polling at most once,
        and the indices that do are those that a delivered answer reported. */
    method PollAll(answers: seq<Option<AvailableList>>, random: nat -> nat -> nat) returns (ghost enqueued: seq<nat>)
      requires Valid()
      requires forall a | 0 <= a < |answers| :: Indices(answers[a], availableChunkList.Length)
      modifies this`lastUpdatedAt, this`availableChunkCount, this`polled, availableChunkList, queue
      ensures Valid() && queue.queue == old(queue.queue) + enqueued
      ensures NoDuplicates(enqueued)
      ensures forall i: nat :: i in enqueued <==> i in polled && i !in old(polled)
      ensures forall i: nat :: i in polled <==> i in old(polled) || exists a | 0 <= a < |answers| ::
                answers[a].Some? && if answers[a].value.isCompleted then i < availableChunkList.Length
                                    else i in answers[a].value.indices
    {
      hide *;
      ghost var before, queued := polled, queue.queue;
      NothingFilled(before, queued);
      enqueued := [];
      NothingHeard(before, answers, availableChunkList.Length);
      var a := 0;
      while a < |answers|
        invariant 0 <= a <= |answers| && Valid() && Filled(before, polled, queued, queue.queue, enqueued)
        invariant Heard(before, polled, answers, a, availableChunkList.Length)
      {
        ghost var known, held := polled, queue.queue;
        KnownBelow();
        var ok := UpdatePeerAvailableList(answers[a], random(a));
        HeardMore(before, known, polled, answers, a, availableChunkList.Length);
        FilledMore(before, known, polled, queued, held, queue.queue, enqueued);
        enqueued := enqueued + queue.queue[|held|..];
        a := a + 1;
      }
      PolledOnce();
      FilledOnce(before, polled, queued, queue.queue, enqueued);
      HeardAll(before, polled, answers, availableChunkList.Length);
    }

    lemma KnownBelow()
      requires Valid()
      ensures forall i: nat | i in polled :: i < availableChunkList.Length
    {
    }

    lemma PolledOnce()
      requires Valid()
      ensures NoDuplicates(polled)
    {
    }

    /** The count reaches the chunk count exactly when every chunk has been enqueued. */
    lemma CompleteIff()
      requires Valid()
      ensures availableChunkCount == availableChunkList.Length <==>
                forall i: nat | i < availableChunkList.Length :: i in polled
    {
      var n := availableChunkList.Length;
      DistinctSize(polled);
      AllBelowCount(n);
      if availableChunkCount == n {
        SameSizeSubset(Elements(polled), AllBelow(n));
        forall i: nat | i < n ensures i in polled { assert i in AllBelow(n); }
      }
      if forall i: nat | i < n :: i in polled {
        assert Elements(polled) == AllBelow(n);
      }
    }

    /** The last part of a tick: polls, and stops when every chunk is known. */
    method PollOnce(answer: Option<AvailableList>, random: nat -> nat)
      requires Valid() && Indices(answer, availableChunkList.Length)
      modifies this`lastUpdatedAt, this`availableChunkCount, this`polled, this`stopped, availableChunkList, queue
      ensures Valid() && old(queue.queue) <= queue.queue && old(polled) <= polled
      ensures multiset(queue.queue[|old(queue.queue)|..]) == multiset(polled[|old(polled)|..])
      ensures answer.None? ==> polled == old(polled) && lastUpdatedAt == old(lastUpdatedAt)
      ensures answer.Some? ==>
                && lastUpdatedAt == answer.value.timestamp
                && forall i: nat :: i in polled <==>
                     if answer.value.isCompleted then i < availableChunkList.Length
                     else i in old(polled) || i in answer.value.indices
      ensures stopped <==>
                old(stopped) || (answer.Some? && forall i: nat | i < availableChunkList.Length :: i in polled)
    {
      hide *;
      var ok := UpdatePeerAvailableList(answer, random);
      CompleteIff();
      if ok && availableChunkCount == availableChunkList.Length {
        stopped := true;
      }
    }

    /** One tick of the polling goroutine, exactly: what it finds out about the peer, whether it polls, what
        it learns, and when it stops. Nothing is polled from oneself or before the checksums were found
        equal. */
    method Tick(uuid: Option<bool>, checksum: Option<bool>, answer: Option<AvailableList>, random: nat -> nat)
      requires Valid() && Indices(answer, availableChunkList.Length)
      modifies this, availableChunkList, queue
      ensures Valid() && old(queue.queue) <= queue.queue && old(polled) <= polled
      ensures multiset(queue.queue[|old(queue.queue)|..]) == multiset(polled[|old(polled)|..])
      ensures isSelfInit <==> old(isSelfInit) || uuid == Some(false)
      ensures isSelf <==> if old(isSelfInit) || uuid.None? then old(isSelf) else uuid == Some(true)
      ensures isValidInit <==> old(isValidInit) || (isSelfInit && checksum == Some(true))
      ensures mismatched <==> old(mismatched) || (isSelfInit && !old(isValidInit) && checksum == Some(false))
      ensures isSelfInit && isValidInit && answer.Some? ==>
                && lastUpdatedAt == answer.value.timestamp
                && forall i: nat :: i in polled <==>
                     if answer.value.isCompleted then i < availableChunkList.Length
                     else i in old(polled) || i in answer.value.indices
      ensures !(isSelfInit && isValidInit && answer.Some?) ==>
                lastUpdatedAt == old(lastUpdatedAt) && polled == old(polled)
      ensures stopped <==>
                || old(stopped)
                || (!old(isSelfInit) && uuid == Some(true))
                || (isSelfInit && !old(isValidInit) && checksum == Some(false))
                || (isSelfInit && isValidInit && answer.Some? && forall i: nat | i < availableChunkList.Length :: i in polled)
    {
      hide *;
      if !isSelfInit {
        if uuid.None? {
          return;
        }
        isSelf := uuid.value;
        if isSelf {
          stopped := true;
          return;
        }
        isSelfInit := true;
      }
      if !isValidInit {
        if checksum.None? {
          return;
        }
        if !checksum.value {
          stopped, mismatched := true, true;
          return;
        }
        isValidInit := true;
      }
      PollOnce(answer, random);
    }
  }
}
