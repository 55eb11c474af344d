/** What holds in every state of every run of a swarm. */
module SwarmResults {
  import opened Planning
  import opened Plans
  import opened Storing
  import opened ChunkWriting
  import opened Nodes
  import opened Options
  import opened NodeInvariants
  import opened Swarms
  import opened SwarmSafety

  /** A plan made by `BuildChunks` meets what `Trusted` asks of a plan. */
  lemma PlansAreTrusted(c: Config, sizes: seq<int>, maxFiles: int)
    requires Tiling(sizes, maxFiles, c.plan)
    requires c.verify ==> CollisionFree(c.hash) && forall i: nat | i < |c.plan| :: c.hash(SourceBytes(c, i)) != 0
    ensures Trusted(c, sizes)
  {
    TilingIsPartition(sizes, maxFiles, c.plan);
    forall i, k | 0 <= i < |c.plan| && 0 <= k < |c.plan[i]| ensures Inside(sizes, c.plan[i][k]) {
      assert Tile(sizes, maxFiles, c.plan[i]);
    }
  }

  lemma InvOfRun(c: Config, sizes: seq<int>, states: seq<Swarm>, moves: seq<Move>, k: nat, a: nat)
    requires Trusted(c, sizes) && Run(c, states, moves) && k < |states| && a < |states[k]|
    ensures Inv(c, states[k][a]) && NodeHolds(c, states[k][a]) && UpstreamServes(states[k], states[k][a])
  {
    hide Trusted, Run, Inv, NodeHolds, UpstreamServes;
    RunHolds(c, sizes, states, moves, k);
  }

  // Bytes -----------------------------------------------------------------------

  /** Whatever any node serves is the source's, byte by byte, and so is the digest sent with it. */
  lemma ServedIsSource(c: Config, sizes: seq<int>, states: seq<Swarm>, moves: seq<Move>, k: nat, a: nat, i: nat)
    requires Trusted(c, sizes) && Run(c, states, moves) && k < |states| && a < |states[k]|
    requires i < |c.plan| && Served(states[k][a], i)
    ensures ServedBytes(c, states[k][a], i) == SourceBytes(c, i)
    ensures Digest(c, states[k][a], i, ServedBytes(c, states[k][a], i)) == c.hash(SourceBytes(c, i))
  {
    hide *;
    RunHolds(c, sizes, states, moves, k);
    InvOfRun(c, sizes, states, moves, k, a);
    ServedHolds(c, states[k], a, i);
    DigestHolds(c, states[k][a], i);
  }

  /** When a node says it is completed, every byte of every file is the source's. */
  lemma CompletedCopyIsExact(c: Config, sizes: seq<int>, states: seq<Swarm>, moves: seq<Move>, k: nat, a: nat, x: Addr)
    requires Trusted(c, sizes) && Run(c, states, moves) && k < |states| && a < |states[k]|
    requires states[k][a].completed && !states[k][a].serveOnly && IsFileAddr(sizes, x)
    ensures At(states[k][a].store, x) == At(c.source, x)
  {
    var n := states[k][a];
    var i: nat := ChunkOf(c, sizes, x);
    var j :| 0 <= j < |Addrs(c, i)| && Addrs(c, i)[j] == x;
    assert Served(n, i);
    hide Trusted, Run, Served, Addrs;
    ServedIsSource(c, sizes, states, moves, k, a, i);
    assert ServedBytes(c, n, i)[j] == SourceBytes(c, i)[j];
  }

  lemma ChunkOf(c: Config, sizes: seq<int>, x: Addr) returns (i: nat)
    requires Trusted(c, sizes) && IsFileAddr(sizes, x)
    ensures i < |c.plan| && x in Addrs(c, i)
  {
    hide Inside;
    assert InSomeChunk(c.plan, x);
    i :| i < |c.plan| && x in ChunkAddrs(c.plan[i]);
  }

  /** A peer is never asked for a chunk that it does not serve: the handler's "not ready" answer is
      never given. */
  lemma PeersAreAskedForServedChunks(c: Config, sizes: seq<int>, states: seq<Swarm>, moves: seq<Move>,
                                     k: nat, a: nat, d: nat, t: nat)
    requires Trusted(c, sizes) && Run(c, states, moves) && k < |states| && a < |states[k]|
    requires Thread(states[k][a], d, t) && PcOf(states[k][a], d, t).Requesting? && states[k][a].ds[d].kind.Peer?
    ensures var host := states[k][a].ds[d].kind.host;
            host < |states[k]| && Served(states[k][host], PcOf(states[k][a], d, t).i)
  {
    assert Token(PcOf(states[k][a], d, t)) == Some(PcOf(states[k][a], d, t).i);
    hide *;
    RunHolds(c, sizes, states, moves, k);
    HandIsServed(c, states[k], a, d, t);
  }

  /** Polling enqueues only what the peer serves, and the peer goes on serving it. */
  lemma EnqueuedChunksAreServed(c: Config, sizes: seq<int>, states: seq<Swarm>, moves: seq<Move>,
                                k: nat, a: nat, d: nat, i: nat)
    requires Trusted(c, sizes) && Run(c, states, moves) && k < |states| && a < |states[k]| && d < |states[k][a].ds|
    requires states[k][a].ds[d].kind.Peer? && i in states[k][a].ds[d].known
    ensures var host := states[k][a].ds[d].kind.host; host < |states[k]| && Served(states[k][host], i)
  {
    hide Trusted, Run, Inv, NodeHolds, Served;
    InvOfRun(c, sizes, states, moves, k, a);
  }

  /** Whatever mix of source computations, destination computations and verified writes filled the
      checksum cache, an entry is empty or the hash of its chunk's source bytes. */
  lemma CacheIsOfSource(c: Config, sizes: seq<int>, states: seq<Swarm>, moves: seq<Move>, k: nat, a: nat, i: nat)
    requires Trusted(c, sizes) && Run(c, states, moves) && k < |states| && a < |states[k]| && i < |c.plan|
    ensures var cache := states[k][a].cache;
            i < |cache| && (cache[i] == 0 || cache[i] == c.hash(SourceBytes(c, i)))
  {
    hide Trusted, Run, Inv, UpstreamServes, ThreadsHold, DoneHolds, SourceBytes;
    InvOfRun(c, sizes, states, moves, k, a);
  }

  // Completion --------------------------------------------------------------------

  /** Completion is neither early nor missed nor overshot. A completed node has every chunk; a
      downloader's counter never passes the chunk count, reaches it only when every chunk is Done,
      and once it has and no call of `CompleteOne` is under way, the node is completed. */
  lemma CompletionIsExact(c: Config, sizes: seq<int>, states: seq<Swarm>, moves: seq<Move>, k: nat, a: nat, d: nat)
    requires Trusted(c, sizes) && Run(c, states, moves) && k < |states| && a < |states[k]| && d < |states[k][a].ds|
    ensures var n, dl := states[k][a], states[k][a].ds[d];
            && (n.completed && !n.serveOnly ==> n.cancelled && forall i: nat | i < |c.plan| :: IsDone(n.status, i))
            && dl.numCompleted <= |c.plan|
            && (dl.numCompleted == |c.plan| ==> forall i: nat | i < |c.plan| :: IsDone(n.status, i))
            && (dl.numCompleted == |c.plan| && (forall t | 0 <= t < |dl.threads| :: !InCompleteOne(dl.threads[t])) ==>
                  n.completed)
  {
    var n, dl := states[k][a], states[k][a].ds[d];
    InvOfRun(c, sizes, states, moves, k, a);
    hide Trusted, Run, NodeHolds, UpstreamServes;
    if dl.numCompleted == |c.plan| { FullCountMeansAllDone(c, n, d); }
    InvOf(c, n, d);
    CountWithin(c, dl);
    hide Owners, Tokens, DownloaderFits, TokensOf;
  }

  lemma CountWithin(c: Config, dl: Downloader)
    requires DownloaderFits(c, dl) && TokensOf(dl)
    ensures dl.numCompleted <= |c.plan|
  {
    FiniteBelow(dl.counted, |c.plan|);
  }

  /** Every index a downloader knows is in exactly one place: once in the queue, in one goroutine's
      hand, or counted. */
  lemma EachIndexIsInOnePlace(c: Config, sizes: seq<int>, states: seq<Swarm>, moves: seq<Move>, k: nat, a: nat, d: nat, i: nat)
    requires Trusted(c, sizes) && Run(c, states, moves) && k < |states| && a < |states[k]| && d < |states[k][a].ds|
    ensures var dl := states[k][a].ds[d];
            && NoDuplicates(dl.queue)
            && (i in dl.known <==> i in dl.queue || InHand(dl, i) || i in dl.counted)
            && !(i in dl.queue && InHand(dl, i)) && !(i in dl.queue && i in dl.counted) && !(InHand(dl, i) && i in dl.counted)
            && (forall t, u | 0 <= t < |dl.threads| && 0 <= u < |dl.threads| && Token(dl.threads[t]) == Some(i)
                  && Token(dl.threads[u]) == Some(i) :: t == u)
  {
    var dl := states[k][a].ds[d];
    InvOfRun(c, sizes, states, moves, k, a);
    assert TokensOf(dl);
    hide Trusted, Run, Inv, NodeHolds, UpstreamServes, Token, NoDuplicates;
    assert InHand(dl, i) <==> i in dl.held;
  }

  ghost predicate InHand(dl: Downloader, i: nat) {
    exists t :: 0 <= t < |dl.threads| && Token(dl.threads[t]) == Some(i)
  }

  // Ownership ---------------------------------------------------------------------

  ghost predicate Owns(n: Node, d: nat, t: nat, i: nat) {
    Thread(n, d, t) && Claim(PcOf(n, d, t)) == Some(i)
  }

  /** A chunk is Downloading exactly while one goroutine of the node has claimed it, and one only. */
  lemma DownloadingMeansOneOwner(c: Config, sizes: seq<int>, states: seq<Swarm>, moves: seq<Move>, k: nat, a: nat, i: nat)
    requires Trusted(c, sizes) && Run(c, states, moves) && k < |states| && a < |states[k]| && i < |c.plan|
    ensures var n := states[k][a];
            && |n.status| == |c.plan|
            && (n.status[i].Downloading? <==> exists d: nat, t: nat :: Owns(n, d, t, i))
            && (forall d: nat, t: nat, e: nat, u: nat | Owns(n, d, t, i) && Owns(n, e, u, i) :: d == e && t == u)
  {
    var n := states[k][a];
    InvOfRun(c, sizes, states, moves, k, a);
    hide Trusted, Run, NodeHolds, UpstreamServes, Tokens, Counts, DownloaderFits, Claim;
    if n.status[i].Downloading? { assert Owns(n, n.owner[i].0, n.owner[i].1, i); }
  }

  lemma {:induction false} DoneStays(c: Config, sizes: seq<int>, states: seq<Swarm>, moves: seq<Move>,
                                     j: nat, k: nat, a: nat, i: nat)
    requires Trusted(c, sizes) && Run(c, states, moves) && j <= k < |states| && a < |states[j]|
    requires IsDone(states[j][a].status, i)
    ensures a < |states[k]| && IsDone(states[k][a].status, i)
    decreases k - j
  {
    hide Trusted, Run, SwarmInv, CanMove, IsDone;
    if j < k {
      StepOfRun(c, states, moves, k - 1);
      DoneStays(c, sizes, states, moves, j, k - 1, a, i);
      RunHolds(c, sizes, states, moves, k - 1);
      DoneAfter(c, states[k - 1], moves[k - 1], a, i);
    }
  }

  /** A chunk is completed at most once, and then stays Done. */
  lemma DoneOnceAndForEver(c: Config, sizes: seq<int>, states: seq<Swarm>, moves: seq<Move>, j: nat, k: nat, a: nat, i: nat)
    requires Trusted(c, sizes) && Run(c, states, moves) && j <= k < |states| && a < |states[j]|
    requires IsDone(states[j][a].status, i)
    ensures a < |states[k]| && IsDone(states[k][a].status, i)
    ensures i < |states[k][a].writes| && states[k][a].writes[i] == 1
  {
    hide *;
    DoneStays(c, sizes, states, moves, j, k, a, i);
    InvOfRun(c, sizes, states, moves, k, a);
    WrittenOnce(c, states[k][a], i);
  }

  lemma WrittenOnce(c: Config, n: Node, i: nat)
    requires Inv(c, n) && IsDone(n.status, i)
    ensures i < |n.writes| && n.writes[i] == 1
  {
    hide CountsOf, DownloaderFits, Tokens, Owners;
  }

  lemma DoneAfter(c: Config, s: Swarm, m: Move, a: nat, i: nat)
    requires SwarmInv(c, s) && CanMove(c, s, m) && a < |s| && IsDone(s[a].status, i)
    ensures IsDone(After(c, s, m)[a].status, i)
  {
    assert Inv(c, s[m.who]) && Enabled(c, s[m.who], m.a);
    assert Served(s[a], i);
    hide SwarmInv, Inv, CanMove, Next, IsDone, Served;
    if a == m.who { NextKeepsServed(c, s[a], m.a, i); }
  }

  /** When a downloader's dispatcher has returned, all its workers have, and none of its claims is left. */
  lemma NothingIsLeftClaimed(c: Config, sizes: seq<int>, states: seq<Swarm>, moves: seq<Move>, k: nat, a: nat, d: nat, i: nat)
    requires Trusted(c, sizes) && Run(c, states, moves) && k < |states| && a < |states[k]|
    requires Thread(states[k][a], d, 0) && PcOf(states[k][a], d, 0).Exited?
    ensures var n := states[k][a];
            && (forall t | 0 <= t < |n.ds[d].threads| :: n.ds[d].threads[t].Exited?)
            && (i in n.owner ==> n.owner[i].0 != d)
  {
    var n := states[k][a];
    InvOfRun(c, sizes, states, moves, k, a);
    hide Trusted, Run, NodeHolds, UpstreamServes, Tokens, Counts, PcFits;
    assert DownloaderFits(c, n.ds[d]);
    hide ForDispatcher, ForWorker;
  }
}
