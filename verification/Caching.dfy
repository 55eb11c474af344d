/** Verified chunks leave their digest in the checksum cache (src/downloader.go:249-251). */
module Caching {
  import opened Nodes
  import opened NodeSteps
  import opened Swarms
  import opened SwarmSafety
  import opened Liveness

  /** A chunk that is Done, or about to be, has its digest in the cache. */
  ghost predicate Cached(n: Node) {
    && (forall i: nat | IsDone(n.status, i) :: InCache(n, i))
    && (forall d: nat, t: nat | Thread(n, d, t) && PcOf(n, d, t).Publishing? :: InCache(n, PcOf(n, d, t).i))
  }

  predicate InCache(n: Node, i: nat) {
    i < |n.cache| && n.cache[i] != 0
  }

  /** Nothing leaves the cache. */
  lemma StaysCached(n: Node, m: Node)
    requires Cached(n) && forall i: nat | InCache(n, i) :: InCache(m, i)
    requires forall i: nat | IsDone(m.status, i) && !IsDone(n.status, i) :: InCache(m, i)
    requires forall d: nat, t: nat | Thread(m, d, t) && PcOf(m, d, t).Publishing? ::
               InCache(m, PcOf(m, d, t).i) || (Thread(n, d, t) && PcOf(n, d, t) == PcOf(m, d, t))
    ensures Cached(m)
  {
    hide IsDone, InCache;
  }

  lemma StepCaches(c: Config, n: Node, m: Node, d: nat, t: nat)
    requires Steps(n, d, t) && Goes(c, n, m, d, t, Target(c, n, d, t)) && c.verify
    requires PcOf(n, d, t).Checked? ==> PcOf(n, d, t).expected != 0
    requires PcOf(n, d, t).Publishing? ==> InCache(n, PcOf(n, d, t).i)
    ensures forall i: nat | InCache(n, i) :: InCache(m, i)
    ensures forall i: nat | IsDone(m.status, i) && !IsDone(n.status, i) :: InCache(m, i)
    ensures var to := Target(c, n, d, t); to.Publishing? ==> InCache(m, to.i)
  {
    hide QueueStep, OwnerStep, Target, Moved;
  }

  lemma StepStaysCached(c: Config, n: Node, d: nat, t: nat)
    requires Inv(c, n) && Enabled(c, n, Step(d, t)) && c.verify && Cached(n)
    requires PcOf(n, d, t).Checked? ==> PcOf(n, d, t).expected != 0
    ensures Cached(Next(c, n, Step(d, t)))
  {
    var m := Next(c, n, Step(d, t));
    StepWorks(c, n, d, t);
    assert Thread(n, d, t);
    hide Inv, Enabled, Next, Target, QueueStep, StatusStep, Steps, Cached, Goes, InCache, IsDone;
    if PcOf(n, d, t).Publishing? { PublishingIsCached(n, d, t); }
    StepCaches(c, n, m, d, t);
    StaysCached(n, m);
  }

  lemma PublishingIsCached(n: Node, d: nat, t: nat)
    requires Cached(n) && Thread(n, d, t) && PcOf(n, d, t).Publishing?
    ensures InCache(n, PcOf(n, d, t).i)
  {
    hide InCache, IsDone;
  }

  lemma TransferStaysCached(c: Config, n: Node, a: Action)
    requires Shape(c, n) && Enabled(c, n, a) && OfTransfer(a) && Cached(n)
    ensures Cached(Next(c, n, a))
  {
    var m, to := Next(c, n, a), TransferTarget(c, n, a);
    TransferMoves(c, n, a);
    assert !to.Publishing?;
    assert m.cache == n.cache by { TransferJumps(c, n, a); }
    hide Shape, Enabled, Next, TransferTarget, Cached, IsDone;
    StaysCached(n, m);
  }

  lemma OtherStaysCached(c: Config, n: Node, a: Action)
    requires Shape(c, n) && Enabled(c, n, a) && !a.Step? && !OfTransfer(a) && Cached(n) && (a.FillCache? ==> a.value != 0)
    ensures Cached(Next(c, n, a))
  {
    var m := Next(c, n, a);
    assert m.status == n.status;
    if a.HandOver? { HandOverThreads(n, a.d, a.t); }
    hide Shape, DoHandOver, Cached, IsDone;
    StaysCached(n, m);
  }

  /** What fills the cache is the digest of a chunk, and no chunk has the digest 0. */
  lemma FilledIsNotZero(c: Config, sizes: seq<int>, s: Swarm, m: Move)
    requires Trusted(c, sizes) && SwarmInv(c, s) && CanMove(c, s, m) && m.a.FillCache? && c.verify
    ensures m.a.value != 0
  {
    var n, i := s[m.who], m.a.i;
    assert Inv(c, n) && NodeHolds(c, n) && i < |n.cache|;
    assert Shape(c, n);
    assert c.hash(SourceBytes(c, i)) != 0;
    hide Trusted, SwarmInv, Inv, Shape, NodeHolds, Served, SourceBytes, ServedBytes, Digest;
    DigestHolds(c, n, i);
    if Served(n, i) { ServedHolds(c, s, m.who, i); }
  }

  lemma CheckedIsNotZero(c: Config, sizes: seq<int>, s: Swarm, a: nat, d: nat, t: nat)
    requires Trusted(c, sizes) && SwarmInv(c, s) && a < |s| && Thread(s[a], d, t) && PcOf(s[a], d, t).Checked? && c.verify
    ensures PcOf(s[a], d, t).expected != 0
  {
    assert NodeHolds(c, s[a]);
    assert PcHolds(c, s[a].store, PcOf(s[a], d, t));
    hide SwarmInv, NodeHolds, SourceBytes, Addrs;
  }

  lemma MoveStaysCached(c: Config, sizes: seq<int>, s: Swarm, m: Move, a: nat)
    requires Trusted(c, sizes) && SwarmInv(c, s) && CanMove(c, s, m) && a < |s| && Cached(s[a]) && c.verify
    ensures Cached(After(c, s, m)[a])
  {
    var n := s[m.who];
    assert Inv(c, n) && Shape(c, n) && Enabled(c, n, m.a);
    if m.a.FillCache? { FilledIsNotZero(c, sizes, s, m); }
    if m.a.Step? && Thread(n, m.a.d, m.a.t) && PcOf(n, m.a.d, m.a.t).Checked? {
      CheckedIsNotZero(c, sizes, s, m.who, m.a.d, m.a.t);
    }
    assert m.a.Step? ==> Thread(n, m.a.d, m.a.t);
    hide Trusted, SwarmInv, Inv, Shape, Enabled, Allowed, Next, Cached;
    if m.who == a {
      if m.a.Step? {
        StepStaysCached(c, n, m.a.d, m.a.t);
      } else if OfTransfer(m.a) {
        TransferStaysCached(c, n, m.a);
      } else {
        OtherStaysCached(c, n, m.a);
      }
    }
  }

  lemma {:induction false} RunStaysCached(c: Config, sizes: seq<int>, states: seq<Swarm>, moves: seq<Move>, k: nat, a: nat)
    requires Trusted(c, sizes) && Run(c, states, moves) && k < |states| && a < |states[k]| && c.verify
    ensures Cached(states[k][a])
  {
    if k == 0 {
      assert Fresh(c, states[0][a]);
    } else {
      StepOfRun(c, states, moves, k - 1);
      hide Trusted, Run, SwarmInv, CanMove, Cached;
      RunStaysCached(c, sizes, states, moves, k - 1, a);
      RunHolds(c, sizes, states, moves, k - 1);
      MoveStaysCached(c, sizes, states[k - 1], moves[k - 1], a);
    }
  }

  /** With verification, the digest of every Done chunk is in the cache: it need not be computed when the
      chunk is served. */
  lemma DoneIsCached(c: Config, sizes: seq<int>, states: seq<Swarm>, moves: seq<Move>, k: nat, a: nat, i: nat)
    requires Trusted(c, sizes) && Run(c, states, moves) && k < |states| && a < |states[k]| && c.verify
    requires i < |states[k][a].status| && states[k][a].status[i].Done?
    ensures i < |c.plan| && i < |states[k][a].cache| && states[k][a].cache[i] == c.hash(SourceBytes(c, i))
  {
    RunStaysCached(c, sizes, states, moves, k, a);
    RunHolds(c, sizes, states, moves, k);
    assert NodeHolds(c, states[k][a]) && IsDone(states[k][a].status, i);
    assert InCache(states[k][a], i);
    hide Run, Trusted, SwarmInv, DoneHolds, ThreadsHold, SourceBytes;
  }
}
