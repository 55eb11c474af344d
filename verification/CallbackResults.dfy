/** What the file callbacks mean, in every run of a swarm. */
module CallbackResults {
  import opened Planning
  import opened Plans
  import opened Storing
  import opened ChunkWriting
  import opened Nodes
  import opened Options
  import opened NodeInvariants
  import opened NodeSteps
  import opened Swarms
  import opened SwarmSafety
  import opened SwarmResults
  import opened Callbacks

  /** In every run, failed attempts included: each file's counter is its number of ranges minus the
      range writes finished so far, and its callback has run once if that many have finished, and
      never otherwise. */
  lemma {:induction false} CounterIsExact(c: Config, sizes: seq<int>, states: seq<Swarm>, moves: seq<Move>, k: nat, a: nat)
    requires Trusted(c, sizes) && Run(c, states, moves) && k < |states| && a < |states[k]|
    ensures TallyHolds(c.plan, states[k][a].tally, states[k][a].log)
  {
    if k == 0 {
      assert Fresh(c, states[0][a]);
    } else {
      assert Leads(c, states[k - 1], moves[k - 1], states[k - 1 + 1]);
      CounterIsExact(c, sizes, states, moves, k - 1, a);
      RunHolds(c, sizes, states, moves, k - 1);
      var s, m := states[k - 1], moves[k - 1];
      assert Inv(c, s[m.who]) && Enabled(c, s[m.who], m.a);
      hide Trusted, Run, SwarmInv, TallyHolds, Next, Inv, Enabled, Allowed, Shape;
      if m.who == a { NextKeepsTally(c, s[a], m.a); }
    }
  }

  /** The step that runs the callback of a file finds all of the file's ranges written exactly when no
      range of the file has been finished twice. Only attempts that fail after finishing a range can
      make it run too early. */
  lemma CallbackIsInTimeIff(c: Config, sizes: seq<int>, states: seq<Swarm>, moves: seq<Move>, k: nat, a: nat, f: nat)
    requires Trusted(c, sizes) && Run(c, states, moves) && k + 1 < |states| && a < |states[k]|
    requires f < |states[k][a].tally.remaining| && f !in states[k][a].tally.completed
    requires a < |states[k + 1]| && f in states[k + 1][a].tally.completed
    ensures var log := states[k + 1][a].log; AllFinished(c.plan, log, f) <==> EachOnce(c.plan, log, f)
  {
    var n, m := states[k][a], states[k + 1][a];
    CounterIsExact(c, sizes, states, moves, k, a);
    CounterIsExact(c, sizes, states, moves, k + 1, a);
    OneMoreLog(c, sizes, states, moves, k, a);
    assert CounterHolds(c.plan, n.tally, n.log, f) && CounterHolds(c.plan, m.tally, m.log, f);
    hide *;
    FiredNow(c.plan, n.tally, m.tally, n.log, m.log, f);
    AllFinishedIff(c.plan, m.log, f);
  }

  lemma FiredNow(plan: seq<Chunk>, t: Tally, t': Tally, log: seq<(nat, nat)>, log': seq<(nat, nat)>, f: nat)
    requires f < |t.remaining| == |t'.remaining| && CounterHolds(plan, t, log, f) && CounterHolds(plan, t', log', f)
    requires f !in t.completed && f in t'.completed && (log' == log || exists e :: log' == log + [e])
    ensures Finished(plan, log', f) == RangeCount(plan, f)
  {
    assert f in multiset(t'.completed) && f !in multiset(t.completed);
    if e :| log' == log + [e] {
      assert log'[..|log'| - 1] == log;
    }
  }

  /** Each move adds at most one entry to a node's log. */
  lemma OneMoreLog(c: Config, sizes: seq<int>, states: seq<Swarm>, moves: seq<Move>, k: nat, a: nat)
    requires Trusted(c, sizes) && Run(c, states, moves) && k + 1 < |states| && a < |states[k]|
    ensures a < |states[k + 1]|
    ensures |states[k + 1][a].tally.remaining| == |states[k][a].tally.remaining|
    ensures var log, log' := states[k][a].log, states[k + 1][a].log; log' == log || exists e :: log' == log + [e]
  {
    assert Leads(c, states[k], moves[k], states[k + 1]);
    RunHolds(c, sizes, states, moves, k);
    var s, m := states[k], moves[k];
    assert Inv(c, s[m.who]) && Shape(c, s[m.who]) && Enabled(c, s[m.who], m.a);
    hide Trusted, Run, SwarmInv, Inv, Allowed, Shape;
    if m.who == a {
      if m.a.EndRange? {
        TransferMoves(c, s[a], m.a);
      } else {
        NextLog(c, s[a], m.a);
      }
    }
  }

  // Clean runs -----------------------------------------------------------------------

  /** Up to state `k`, no attempt of node `a` failed after finishing a range. */
  ghost predicate CleanUpTo(c: Config, states: seq<Swarm>, moves: seq<Move>, k: nat, a: nat) {
    k <= |moves| && k < |states| &&
    forall j | 0 <= j < k && moves[j].who == a && a < |states[j]| :: FailsCleanly(c, states[j][a], moves[j].a)
  }

  lemma {:induction false} CleanRunHasCleanLog(c: Config, sizes: seq<int>, states: seq<Swarm>, moves: seq<Move>, k: nat, a: nat)
    requires Trusted(c, sizes) && Run(c, states, moves) && CleanUpTo(c, states, moves, k, a) && a < |states[k]|
    ensures CleanLog(c, states[k][a])
  {
    if k == 0 {
      assert Fresh(c, states[0][a]);
    } else {
      assert Leads(c, states[k - 1], moves[k - 1], states[k - 1 + 1]);
      CleanRunHasCleanLog(c, sizes, states, moves, k - 1, a);
      RunHolds(c, sizes, states, moves, k - 1);
      var s, m := states[k - 1], moves[k - 1];
      assert Inv(c, s[m.who]) && Enabled(c, s[m.who], m.a);
      hide Trusted, Run, SwarmInv, CleanLog, Next, Inv, Enabled, Allowed, Shape, FailsCleanly;
      if m.who == a { NextKeepsCleanLog(c, s[a], m.a); }
    }
  }

  /** In a clean run a callback that has run was not early: every range of its file is written, and
      counted once. */
  lemma CleanCallbackIsInTime(c: Config, sizes: seq<int>, states: seq<Swarm>, moves: seq<Move>, k: nat, a: nat, f: nat)
    requires Trusted(c, sizes) && Run(c, states, moves) && CleanUpTo(c, states, moves, k, a) && a < |states[k]|
    requires f < |states[k][a].tally.remaining| && f in states[k][a].tally.completed
    ensures AllFinished(c.plan, states[k][a].log, f) && EachOnce(c.plan, states[k][a].log, f)
  {
    var n := states[k][a];
    CleanRunHasCleanLog(c, sizes, states, moves, k, a);
    CounterIsExact(c, sizes, states, moves, k, a);
    assert CounterHolds(c.plan, n.tally, n.log, f) && f in multiset(n.tally.completed);
    CleanLogIsBounded(c, n, f);
    hide *;
    AllFinishedIff(c.plan, n.log, f);
  }

  /** A log without duplicates has at most as many entries of a file as the file has ranges. */
  lemma CleanLogIsBounded(c: Config, n: Node, f: nat)
    requires CleanLog(c, n)
    ensures EachOnce(c.plan, n.log, f) && Finished(c.plan, n.log, f) <= RangeCount(c.plan, f)
  {
    hide Progress;
    FinishedIsSize(c.plan, n.log, f);
    SubsetSize(FinishedRanges(c.plan, n.log, f), RangesOf(c.plan, f));
  }

  /** Once all chunks are Done in a clean run, the callback of every file that has bytes has run
      exactly once. */
  lemma CleanRunCallsBackOnce(c: Config, sizes: seq<int>, states: seq<Swarm>, moves: seq<Move>, k: nat, a: nat, f: nat)
    requires Trusted(c, sizes) && Run(c, states, moves) && CleanUpTo(c, states, moves, k, a) && a < |states[k]|
    requires f < |states[k][a].tally.remaining| && RangeCount(c.plan, f) > 0
    requires forall i: nat | i < |c.plan| :: IsDone(states[k][a].status, i)
    ensures multiset(states[k][a].tally.completed)[f] == 1
  {
    var n := states[k][a];
    CleanRunHasCleanLog(c, sizes, states, moves, k, a);
    CounterIsExact(c, sizes, states, moves, k, a);
    assert CounterHolds(c.plan, n.tally, n.log, f);
    forall e | IsRangeOf(c.plan, f, e) ensures e in n.log { assert (e.0, e.1) in n.log; }
    hide Trusted, Run, CleanUpTo, CleanLog, TallyHolds, IsRangeOf, RangeCount, Finished;
    SubsetSize(RangesOf(c.plan, f), FinishedRanges(c.plan, n.log, f));
    FinishedIsSize(c.plan, n.log, f);
  }

  /** The range of a chunk that an address lies in. */
  lemma {:induction false} RangeWith(c: Chunk, k: nat, x: Addr) returns (r: nat, j: nat)
    requires k <= |c| && x in ChunkAddrs(c[..k])
    ensures r < k && c[r].fileIndex == x.file
    ensures j < |ChunkAddrs(c[..r + 1])| <= |ChunkAddrs(c)| && ChunkAddrs(c)[j] == x
  {
    assert k > 0;
    hide ChunkAddrs;
    NextRange(c, k - 1);
    if x in ChunkAddrs(c[..k - 1]) {
      r, j := RangeWith(c, k - 1, x);
    } else {
      r := k - 1;
      j :| 0 <= j < |ChunkAddrs(c[..k])| && ChunkAddrs(c[..k])[j] == x;
    }
  }

  lemma {:induction false} BoundGrows(c: Config, i: nat, r: nat, k: nat)
    requires i < |c.plan| && r <= k <= |c.plan[i]|
    ensures Bound(c, i, r) <= Bound(c, i, k)
    decreases k - r
  {
    if r < k {
      BoundWithin(c, i, r);
      hide Bound;
      BoundGrows(c, i, r + 1, k);
    }
  }

  lemma HeldByte(c: Config, store: Store, i: nat, j: nat)
    requires Holds(c, store, i) && j < |Addrs(c, i)|
    ensures At(store, Addrs(c, i)[j]) == At(c.source, Addrs(c, i)[j])
  {
    assert Content(store, Addrs(c, i))[j] == SourceBytes(c, i)[j];
  }

  /** What a goroutine has written of its chunk without verification is the source's. */
  lemma WrittenByte(c: Config, store: Store, pc: Pc, i: nat, r: nat, j: nat)
    requires PcHolds(c, store, pc) && PcFits(c, pc) && Claim(pc) == Some(i) && i < |c.plan| && !c.verify
    requires r < Written(c, pc) && r < |c.plan[i]| && j < Bound(c, i, r + 1) && j < |Addrs(c, i)|
    ensures At(store, Addrs(c, i)[j]) == At(c.source, Addrs(c, i)[j])
  {
    hide Bound;
    match pc {
      case Writing(_, k, got, _) =>
        BoundGrows(c, i, r + 1, k);
        hide Addrs;
        assert Content(store, Addrs(c, i)[..|got|])[j] == got[j] == SourceBytes(c, i)[j];
      case Checked(_, _) => HeldByte(c, store, i, j);
      case Publishing(_) => HeldByte(c, store, i, j);
    }
  }

  lemma WrittenIsSource(c: Config, n: Node, i: nat, r: nat, j: nat)
    requires Inv(c, n) && NodeHolds(c, n) && i < |c.plan| && !c.verify
    requires r < Progress(c, n, i) && r < |c.plan[i]| && j < Bound(c, i, r + 1) && j < |Addrs(c, i)|
    ensures At(n.store, Addrs(c, i)[j]) == At(c.source, Addrs(c, i)[j])
  {
    hide Inv, Holds, PcHolds, CacheAgrees, Written, Bound, Addrs;
    if IsDone(n.status, i) {
      HeldByte(c, n.store, i, j);
    } else {
      var d, t := n.owner[i].0, n.owner[i].1;
      OwnerFacts(c, n, i);
      ThreadFacts(c, n, d, t);
      WrittenByte(c, n.store, PcOf(n, d, t), i, r, j);
    }
  }

  /** Without verification no wrong byte is ever stored: when the callback of a file has run in a clean
      run, every byte of the file is the source's. */
  lemma CleanCallbackSeesTheFile(c: Config, sizes: seq<int>, states: seq<Swarm>, moves: seq<Move>,
                                 k: nat, a: nat, f: nat, x: Addr)
    requires Trusted(c, sizes) && Run(c, states, moves) && CleanUpTo(c, states, moves, k, a) && a < |states[k]|
    requires f < |states[k][a].tally.remaining| && f in states[k][a].tally.completed && !c.verify
    requires IsFileAddr(sizes, x) && x.file == f
    ensures At(states[k][a].store, x) == At(c.source, x)
  {
    var n := states[k][a];
    hide Trusted, Run, CleanUpTo, NodeHolds, Inv, Progress, UpstreamServes;
    CleanCallbackIsInTime(c, sizes, states, moves, k, a, f);
    CleanRunHasCleanLog(c, sizes, states, moves, k, a);
    InvOfRun(c, sizes, states, moves, k, a);
    var i := ChunkOf(c, sizes, x);
    assert c.plan[i][..|c.plan[i]|] == c.plan[i];
    var r, j := RangeWith(c.plan[i], |c.plan[i]|, x);
    assert IsRangeOf(c.plan, f, (i, r)) && r < Progress(c, n, i);
    hide CleanLog, AllFinished, EachOnce, At;
    WrittenIsSource(c, n, i, r, j);
  }
}
