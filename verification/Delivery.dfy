/** A chunk that one node has finished can be had from it (src/http_server.go:201-281). */
module Delivery {
  import opened Nodes
  import opened Names
  import opened Plans
  import opened Swarms
  import opened SwarmSafety
  import opened Weights
  import opened Liveness
  import opened LiveCompletion

  /** The `/chunk` handler lists finished chunks: a peer's downloader can learn by its next poll of any of
      them that it does not know yet, in any order, whether or not the peer has completed. */
  lemma DoneAreListed(c: Config, sizes: seq<int>, run: seq<Swarm>, taken: seq<Move>, k: nat, a: nat, h: nat, d: nat,
                      list: seq<nat>)
    requires Trusted(c, sizes) && Run(c, run, taken) && k < |run| && a < |run[k]| && h < |run[k]| && a != h
    requires d < |run[k][a].ds| && run[k][a].ds[d].kind == Peer(h) && run[k][a].ds[d].valid
    requires NoDuplicates(list) && forall i | i in list :: i !in run[k][a].ds[d].known
    requires forall i | i in list :: i < |run[k][h].status| && (run[k][h].status[i].Done? || run[k][h].completed)
    ensures CanMove(c, run[k], Move(a, Poll(d, list)))
  {
    RunHolds(c, sizes, run, taken, k);
    DoneCanBePolled(c, run[k], a, h, d, list);
  }

  lemma DoneCanBePolled(c: Config, s: Swarm, a: nat, h: nat, d: nat, list: seq<nat>)
    requires SwarmInv(c, s) && a < |s| && h < |s| && a != h
    requires d < |s[a].ds| && s[a].ds[d].kind == Peer(h) && s[a].ds[d].valid
    requires NoDuplicates(list) && forall i | i in list :: i !in s[a].ds[d].known
    requires forall i | i in list :: i < |s[h].status| && (s[h].status[i].Done? || s[h].completed)
    ensures CanMove(c, s, Move(a, Poll(d, list)))
  {
    assert Inv(c, s[a]) && Inv(c, s[h]);
    assert Shape(c, s[a]) && |s[h].status| == |c.plan|;
    hide SwarmInv, Inv, Shape, NoDuplicates;
  }

  /** The chunk handler sends every finished chunk to whoever asks for it, with its digest. */
  lemma DoneIsSent(c: Config, sizes: seq<int>, run: seq<Swarm>, taken: seq<Move>, k: nat, a: nat, h: nat, d: nat,
                  t: nat, i: nat)
    requires Trusted(c, sizes) && Run(c, run, taken) && k < |run| && a < |run[k]| && h < |run[k]|
    requires i < |run[k][h].status| && run[k][h].status[i].Done?
    requires Thread(run[k][a], d, t) && run[k][a].ds[d].kind == Peer(h) && PcOf(run[k][a], d, t) == Requesting(i)
    ensures i < |c.plan| && CanMove(c, run[k], Move(a, Reply(d, t, Expected(c, i))))
  {
    RunHolds(c, sizes, run, taken, k);
    DoneCanBeSent(c, run[k], a, h, d, t, i);
  }

  lemma DoneCanBeSent(c: Config, s: Swarm, a: nat, h: nat, d: nat, t: nat, i: nat)
    requires SwarmInv(c, s) && a < |s| && h < |s| && i < |s[h].status| && s[h].status[i].Done?
    requires Thread(s[a], d, t) && s[a].ds[d].kind == Peer(h) && PcOf(s[a], d, t) == Requesting(i)
    ensures i < |c.plan| && CanMove(c, s, Move(a, Reply(d, t, Expected(c, i))))
  {
    assert Inv(c, s[a]) && Inv(c, s[h]);
    assert Shape(c, s[a]) && |s[h].status| == |c.plan|;
    assert NodeHolds(c, s[h]) && Served(s[h], i);
    hide SwarmInv, Inv, Shape, NodeHolds, Served, SourceBytes, ServedBytes, Digest, Expected;
    ServedHolds(c, s, h, i);
    DigestHolds(c, s[h], i);
    SentByFacts(c, s, a, h, d, t, i);
  }

  lemma SentByFacts(c: Config, s: Swarm, a: nat, h: nat, d: nat, t: nat, i: nat)
    requires a < |s| && h < |s| && Shape(c, s[a]) && i < |c.plan| && i < |s[h].status| && s[h].status[i].Done?
    requires Thread(s[a], d, t) && s[a].ds[d].kind == Peer(h) && PcOf(s[a], d, t) == Requesting(i)
    requires Digest(c, s[h], i, ServedBytes(c, s[h], i)) == c.hash(SourceBytes(c, i))
    ensures CanMove(c, s, Move(a, Reply(d, t, Expected(c, i))))
  {
    hide Shape, SourceBytes, ServedBytes, Digest;
  }

  /** The bytes of a chunk may arrive in pieces of any size; with verification they may be any bytes. */
  lemma AnyPieceArrives(c: Config, sizes: seq<int>, run: seq<Swarm>, taken: seq<Move>, k: nat, a: nat, d: nat, t: nat,
                        data: seq<byte>)
    requires Trusted(c, sizes) && Run(c, run, taken) && k < |run| && a < |run[k]| && Thread(run[k][a], d, t)
    requires var w := PcOf(run[k][a], d, t);
             && w.Writing? && w.i < |c.plan| && w.k < |c.plan[w.i]|
             && data != [] && |w.got| + |data| <= Bound(c, w.i, w.k + 1)
             && (c.verify || (|w.got| + |data| <= |SourceBytes(c, w.i)|
                              && data == SourceBytes(c, w.i)[|w.got|..|w.got| + |data|]))
    ensures CanMove(c, run[k], Move(a, Receive(d, t, data)))
  {
    hide *;
    RunHolds(c, sizes, run, taken, k);
    ShapeOf(c, run[k], a);
    UpstreamOf(c, run[k], a, d, t);
    PieceArrives(c, run[k], a, d, t, data);
  }

  lemma ShapeOf(c: Config, s: Swarm, a: nat)
    requires SwarmInv(c, s) && a < |s|
    ensures Shape(c, s[a])
  {
    assert Inv(c, s[a]);
  }

  lemma UpstreamOf(c: Config, s: Swarm, a: nat, d: nat, t: nat)
    requires SwarmInv(c, s) && a < |s| && Thread(s[a], d, t) && PcOf(s[a], d, t).Writing? && PcOf(s[a], d, t).i < |c.plan|
    ensures Upstream(c, s, s[a].ds[d].kind, PcOf(s[a], d, t).i) == SourceBytes(c, PcOf(s[a], d, t).i)
  {
    hide SwarmInv, SourceBytes, Upstream;
    UpstreamHolds(c, s, a, d, t, PcOf(s[a], d, t).i);
  }

  lemma PieceArrives(c: Config, s: Swarm, a: nat, d: nat, t: nat, data: seq<byte>)
    requires a < |s| && Shape(c, s[a]) && Thread(s[a], d, t)
    requires var w := PcOf(s[a], d, t);
             && w.Writing? && w.i < |c.plan| && w.k < |c.plan[w.i]|
             && data != [] && |w.got| + |data| <= Bound(c, w.i, w.k + 1)
             && (c.verify || (|w.got| + |data| <= |SourceBytes(c, w.i)|
                              && data == SourceBytes(c, w.i)[|w.got|..|w.got| + |data|]))
             && Upstream(c, s, s[a].ds[d].kind, w.i) == SourceBytes(c, w.i)
    ensures CanMove(c, s, Move(a, Receive(d, t, data)))
  {
    hide Shape, Bound, SourceBytes, Upstream;
  }

  /** A request may be refused or lost, and a transfer may break off before any range is complete. */
  lemma AnyAttemptCanFail(c: Config, sizes: seq<int>, run: seq<Swarm>, taken: seq<Move>, k: nat, a: nat, d: nat, t: nat)
    requires Trusted(c, sizes) && Run(c, run, taken) && k < |run| && a < |run[k]| && Thread(run[k][a], d, t)
    requires var pc := PcOf(run[k][a], d, t);
             pc.Requesting? || (pc.Writing? && pc.i < |c.plan| && pc.k < |c.plan[pc.i]|)
    ensures var m := Move(a, Fail(d, t));
            && CanMove(c, run[k], m) && a < |After(c, run[k], m)| && Thread(After(c, run[k], m)[a], d, t)
            && PcOf(After(c, run[k], m)[a], d, t) == Failing(PcOf(run[k][a], d, t).i)
  {
    hide *;
    RunHolds(c, sizes, run, taken, k);
    ShapeOf(c, run[k], a);
    AttemptFails(c, run[k], a, d, t);
  }

  lemma AttemptFails(c: Config, s: Swarm, a: nat, d: nat, t: nat)
    requires a < |s| && Shape(c, s[a]) && Thread(s[a], d, t)
    requires var pc := PcOf(s[a], d, t);
             pc.Requesting? || (pc.Writing? && pc.i < |c.plan| && pc.k < |c.plan[pc.i]|)
    ensures var m := Move(a, Fail(d, t));
            && CanMove(c, s, m) && a < |After(c, s, m)| && Thread(After(c, s, m)[a], d, t)
            && PcOf(After(c, s, m)[a], d, t) == Failing(PcOf(s[a], d, t).i)
  {
    hide Shape;
  }

  /** A node may compute and cache the digest of what it serves, or of its own source, at any time. */
  lemma DigestsCanBeCached(c: Config, sizes: seq<int>, run: seq<Swarm>, taken: seq<Move>, k: nat, a: nat, i: nat)
    requires Trusted(c, sizes) && Run(c, run, taken) && k < |run| && a < |run[k]| && i < |c.plan|
    ensures var m := Move(a, FillCache(i, c.hash(SourceBytes(c, i))));
            CanMove(c, run[k], m) && i < |run[k][a].cache|
            && After(c, run[k], m)[a] == run[k][a].(cache := run[k][a].cache[i := c.hash(SourceBytes(c, i))])
  {
    var s := run[k];
    RunHolds(c, sizes, run, taken, k);
    assert Inv(c, s[a]) && NodeHolds(c, s[a]);
    assert Shape(c, s[a]);
    hide Run, Trusted, SwarmInv, Inv, DownloaderFits, SourceBytes, NodeHolds, ServedBytes, Digest;
    DigestHolds(c, s[a], i);
  }

  lemma PollMakesAble(c: Config, s: Swarm, a: nat, h: nat, d: nat, i: nat)
    requires SwarmInv(c, s) && a < |s| && CanMove(c, s, Move(a, Poll(d, [i]))) && i < |c.plan|
    requires Live(s[a], d) && s[a].ds[d].valid && !s[a].serveOnly
    ensures var s' := After(c, s, Move(a, Poll(d, [i])));
            && |s'| == |s| && Able(c, s'[a], d, Fetch(i)) && s'[a].cancelled == s[a].cancelled
            && Load(c, s'[a].ds) == Load(c, s[a].ds)
  {
    var n, m := s[a], After(c, s, Move(a, Poll(d, [i])))[a];
    assert i in Elements([i]) by { assert [i][0] == i; }
    hide SwarmInv, Shape, Load, Elements;
    assert |m.ds| == |n.ds| && m.ds == n.ds[d := m.ds[d]] && m.ds[d].threads == n.ds[d].threads;
    SameLoad(c, n, m, d);
  }

  lemma SameLoad(c: Config, n: Node, m: Node, d: nat)
    requires d < |n.ds| == |m.ds| && m.ds == n.ds[d := m.ds[d]] && m.ds[d].threads == n.ds[d].threads
    ensures Load(c, m.ds) == Load(c, n.ds)
  {
    LoadUpdate(c, n.ds, d, m.ds[d]);
    hide Load, LoadOf;
  }

  /** A downloader for the peer that has the chunk: poll, then download. */
  lemma FetchesByPeer(c: Config, sizes: seq<int>, run: seq<Swarm>, taken: seq<Move>, k: nat, a: nat, h: nat, d: nat, i: nat)
    returns (states: seq<Swarm>, moves: seq<Move>)
    requires Trusted(c, sizes) && Run(c, run, taken) && k < |run| && a < |run[k]| && h < |run[k]| && a != h
    requires i < |run[k][h].status| && run[k][h].status[i].Done?
    requires !run[k][a].serveOnly && !run[k][a].cancelled
    requires Live(run[k][a], d) && run[k][a].ds[d].kind == Peer(h) && run[k][a].ds[d].valid
    ensures Path(c, states, moves) && states != [] && states[0] == run[k]
    ensures a < |Last(states)| && i < |Last(states)[a].status| && Last(states)[a].status[i].Done?
    ensures |moves| <= Load(c, run[k][a].ds) + 5 * (|c.plan| * LargestEntry(c, |c.plan|)) + 5
  {
    var s := run[k];
    if i in s[a].ds[d].known {
      assert Able(c, s[a], d, Fetch(i));
      hide Run, Trusted, Path, FaultFree, Load, LargestEntry, Able, Live;
      states, moves := GoalIsInReach(c, sizes, run, taken, k, a, d, Fetch(i));
      PathHasStates(c, states, moves);
    } else {
      hide Run, Trusted, Path, FaultFree, Load, LargestEntry, Able, CanMove, After, SwarmInv, Live;
      states, moves := PollsAndFetches(c, sizes, run, taken, k, a, h, d, i);
    }
  }

  lemma PathHasStates(c: Config, states: seq<Swarm>, moves: seq<Move>)
    requires Path(c, states, moves)
    ensures states != []
  {
  }

  lemma PollsAndFetches(c: Config, sizes: seq<int>, run: seq<Swarm>, taken: seq<Move>, k: nat, a: nat, h: nat, d: nat, i: nat)
    returns (states: seq<Swarm>, moves: seq<Move>)
    requires Trusted(c, sizes) && Run(c, run, taken) && k < |run| && a < |run[k]| && h < |run[k]| && a != h
    requires i < |run[k][h].status| && run[k][h].status[i].Done?
    requires !run[k][a].serveOnly && !run[k][a].cancelled
    requires Live(run[k][a], d) && d < |run[k][a].ds| && run[k][a].ds[d].kind == Peer(h) && run[k][a].ds[d].valid
    requires i !in run[k][a].ds[d].known
    ensures Path(c, states, moves) && states != [] && states[0] == run[k]
    ensures a < |Last(states)| && i < |Last(states)[a].status| && Last(states)[a].status[i].Done?
    ensures |moves| <= Load(c, run[k][a].ds) + 5 * (|c.plan| * LargestEntry(c, |c.plan|)) + 5
  {
    var s, poll := run[k], Move(a, Poll(d, [i]));
    hide Run, Trusted, Path, FaultFree, Load, LargestEntry, Able, CanMove, After, SwarmInv, Live, Good;
    RunHolds(c, sizes, run, taken, k);
    DoneAreListed(c, sizes, run, taken, k, a, h, d, [i]);
    DoneIsOfPlan(c, s, h, i);
    PollMakesAble(c, s, a, h, d, i);
    var s' := After(c, s, poll);
    RunSoFar(c, run, taken, k);
    var r, t := run[..k + 1] + [s'], taken[..k] + [poll];
    assert Last(run[..k + 1]) == s;
    RunGoesOn(c, run[..k + 1], taken[..k], poll);
    assert r[k + 1] == s';
    var rest, more := GoalIsInReach(c, sizes, r, t, k + 1, a, d, Fetch(i));
    PathHasStates(c, rest, more);
    PrependPath(c, s, poll, rest, more);
    states, moves := [s] + rest, [poll] + more;
  }

  lemma DoneIsOfPlan(c: Config, s: Swarm, h: nat, i: nat)
    requires SwarmInv(c, s) && h < |s| && i < |s[h].status|
    ensures i < |c.plan|
  {
    assert Inv(c, s[h]);
    hide SwarmInv, DownloaderFits;
  }

  lemma SpawnMakesLive(c: Config, s: Swarm, a: nat, h: nat, workers: nat)
    requires SwarmInv(c, s) && a < |s| && h < |s| && !s[a].serveOnly && workers >= 1 && c.plan != []
    ensures var m, d := Move(a, Spawn(Peer(h), [], workers)), |s[a].ds|;
            && CanMove(c, s, m) && |After(c, s, m)| == |s| && After(c, s, m) == s[a := After(c, s, m)[a]]
            && var n := After(c, s, m)[a];
               && Live(n, d) && n.ds[d].kind == Peer(h) && n.ds[d].valid && n.serveOnly == s[a].serveOnly
               && n.cancelled == s[a].cancelled && n.status == s[a].status && Load(c, n.ds) == Load(c, s[a].ds)
  {
    var n, d := s[a], |s[a].ds|;
    assert Inv(c, n);
    assert Shape(c, n);
    var m := DoSpawn(c, n, Peer(h), [], workers);
    assert m.ds[d].threads[0] == CheckValid && forall t | 0 < t < |m.ds[d].threads| :: m.ds[d].threads[t] == Waiting;
    hide SwarmInv, Inv, Shape, DoSpawn;
    NewLoad(c, n, m, d);
    hide Load;
  }

  lemma NewLoad(c: Config, n: Node, m: Node, d: nat)
    requires d == |n.ds| && |m.ds| == d + 1 && m.ds[..d] == n.ds
    requires forall t | 0 <= t < |m.ds[d].threads| :: Idle(m.ds[d].threads[t])
    ensures Load(c, m.ds) == Load(c, n.ds)
  {
    NoLoad(c, m.ds[d].threads, false);
    hide LoadOf, Idle;
  }

  /** From every reachable state in which some node has finished a chunk, completed or not, any other node
      that is not cancelled can get it without any source of its own: start a downloader for that peer, poll
      it, download. The number of steps is bounded by the transfers under way and the plan. */
  lemma ChunkCanBeFetched(c: Config, sizes: seq<int>, run: seq<Swarm>, taken: seq<Move>, k: nat, a: nat, h: nat, i: nat,
                          workers: nat)
    returns (states: seq<Swarm>, moves: seq<Move>)
    requires Trusted(c, sizes) && Run(c, run, taken) && k < |run| && a < |run[k]| && h < |run[k]| && a != h
    requires i < |run[k][h].status| && run[k][h].status[i].Done?
    requires !run[k][a].serveOnly && !run[k][a].cancelled && workers >= 1
    ensures Path(c, states, moves) && states != [] && states[0] == run[k]
    ensures a < |Last(states)| && i < |Last(states)[a].status| && Last(states)[a].status[i].Done?
    ensures |moves| <= Load(c, run[k][a].ds) + 5 * (|c.plan| * LargestEntry(c, |c.plan|)) + 6
  {
    var s, d, spawn := run[k], |run[k][a].ds|, Move(a, Spawn(Peer(h), [], workers));
    hide Run, Trusted, Path, FaultFree, Load, LargestEntry, Able, CanMove, After, SwarmInv, Live, Good;
    RunHolds(c, sizes, run, taken, k);
    DoneIsOfPlan(c, s, h, i);
    SpawnMakesLive(c, s, a, h, workers);
    var s' := After(c, s, spawn);
    RunSoFar(c, run, taken, k);
    var r, t := run[..k + 1] + [s'], taken[..k] + [spawn];
    assert Last(run[..k + 1]) == s;
    RunGoesOn(c, run[..k + 1], taken[..k], spawn);
    assert r[k + 1] == s' && s'[h] == s[h];
    var rest, more := FetchesByPeer(c, sizes, r, t, k + 1, a, h, d, i);
    PrependPath(c, s, spawn, rest, more);
    states, moves := [s] + rest, [spawn] + more;
  }
}
