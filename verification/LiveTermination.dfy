/** A single downloader with the full list: every run of it comes to an end. */
module LiveTermination {
  import opened Plans
  import opened ChunkWriting
  import opened Nodes
  import opened NodeInvariants
  import opened NodeSteps
  import opened Swarms
  import opened SwarmSafety
  import opened Weights
  import opened Liveness
  import opened LiveCompletion

  /** The step does no work: the dispatcher goes round its loop, a goroutine ends, a flag is raised, a
      digest is cached. */
  ghost predicate Spins(n: Node, a: Action) {
    match a
    case Step(d, t) => Thread(n, d, t) && Idle(PcOf(n, d, t)) && !(PcOf(n, d, t).Popping? && n.ds[d].queue != [])
    case Invalidate(_) => true
    case Cancel => true
    case FillCache(_, _) => true
    case _ => false
  }

  /** The node has one downloader, with the local source, and what it is about to claim is not Done. */
  ghost predicate Sole(n: Node) {
    && |n.ds| == 1 && n.ds[0].kind.Local?
    && forall t: nat | t < |n.ds[0].threads| && n.ds[0].threads[t].Claiming? :: !IsDone(n.status, n.ds[0].threads[t].i)
  }

  lemma SoleIsAlone(n: Node)
    requires |n.ds| == 1
    ensures OthersIdle(n, 0)
  {
  }

  lemma OtherClaim(c: Config, n: Node, m: Node, t: nat, u: nat)
    requires Inv(c, n) && Sole(n) && Thread(n, 0, t) && Thread(n, 0, u) && u != t && PcOf(n, 0, u).Claiming?
    requires StatusStep(n.status, PcOf(n, 0, t), m.status)
    ensures !IsDone(m.status, PcOf(n, 0, u).i)
  {
    hide Inv;
    var pc, i := PcOf(n, 0, t), PcOf(n, 0, u).i;
    assert !IsDone(n.status, i);
    hide Sole;
    if pc == Publishing(i) { OneHolder(c, n, 0, t, u, i); }
  }

  lemma StepKeepsSole(c: Config, n: Node, m: Node, t: nat)
    requires Inv(c, n) && Sole(n) && Thread(n, 0, t) && |n.status| == |c.plan|
    requires Token(PcOf(n, 0, t)).Some? ==> Token(PcOf(n, 0, t)).value < |n.status|
    requires Worked(n, m, 0, t, Target(c, n, 0, t))
    ensures Sole(m)
  {
    hide Inv, QueueStep, StatusStep, Target, IsDone, Token;
    ClaimsNoDone(c, n, m, t);
    forall u: nat | u < |n.ds[0].threads| && u != t && n.ds[0].threads[u].Claiming?
      ensures !IsDone(m.status, n.ds[0].threads[u].i)
    {
      hide Worked, Sole;
      OtherClaim(c, n, m, t, u);
    }
  }

  lemma ClaimsNoDone(c: Config, n: Node, m: Node, t: nat)
    requires Thread(n, 0, t) && |n.status| == |c.plan| && StatusStep(n.status, PcOf(n, 0, t), m.status)
    requires Token(PcOf(n, 0, t)).Some? ==> Token(PcOf(n, 0, t)).value < |n.status|
    ensures var to := Target(c, n, 0, t); to.Claiming? ==> !IsDone(m.status, to.i)
  {
    hide SomeWorkerIsReady;
  }

  /** A step either works and leaves less to do, or fails and puts at most one chunk back, or spins. */
  lemma StepCounts(c: Config, n: Node, d: nat, t: nat)
    requires Inv(c, n) && Sole(n) && Enabled(c, n, Step(d, t)) && |n.status| == |c.plan|
    ensures var m := Next(c, n, Step(d, t));
            && Sole(m)
            && if Spins(n, Step(d, t)) then Rest(c, m.ds[0]) == Rest(c, n.ds[0])
               else Rest(c, m.ds[0]) < Rest(c, n.ds[0])
  {
    var m, pc := Next(c, n, Step(d, t)), PcOf(n, d, t);
    StepWorks(c, n, d, t);
    StepKeepsSole(c, n, m, t);
    SoleIsAlone(n);
    assert pc.Claiming? ==> !IsDone(n.status, pc.i);
    hide Inv, Sole, OthersIdle, Next, Conflict, Enabled;
    NoConflict(c, n, d, t);
    if Spins(n, Step(d, t)) {
      SpinKeepsRest(c, n, m, d, t);
    } else {
      hide Rest, Goes;
      StepLowersRest(c, n, m, d, t);
    }
  }

  lemma SpinKeepsRest(c: Config, n: Node, m: Node, d: nat, t: nat)
    requires Steps(n, d, t) && Worked(n, m, d, t, Target(c, n, d, t)) && Spins(n, Step(d, t))
    ensures Rest(c, m.ds[d]) == Rest(c, n.ds[d])
  {
    LoadOfUpdate(c, n.ds[d].threads, t, Target(c, n, d, t), true);
    hide LoadOf, QueueLoad, StatusStep, SomeWorkerIsReady, AllWorkersExited;
  }

  lemma MovesKeepSole(n: Node, m: Node, t: nat, to: Pc)
    requires Sole(n) && Thread(n, 0, t) && |m.ds| == |n.ds| && m.status == n.status && m.ds[0].kind == n.ds[0].kind
    requires m.ds[0].threads == n.ds[0].threads[t := to] && !to.Claiming?
    ensures Sole(m)
  {
    hide IsDone;
  }

  /** What a step of a transfer does to the work left. */
  lemma TransferCounts(c: Config, n: Node, a: Action)
    requires Inv(c, n) && Sole(n) && OfTransfer(a) && Enabled(c, n, a)
    ensures var m := Next(c, n, a);
            && Sole(m)
            && if Fails(c, n, a) then Rest(c, m.ds[0]) <= Rest(c, n.ds[0]) + 2 + LargestEntry(c, |c.plan|)
               else Rest(c, m.ds[0]) < Rest(c, n.ds[0])
  {
    var m, to := Next(c, n, a), TransferTarget(c, n, a);
    assert Thread(n, a.d, a.t) && a.d == 0;
    ThreadFacts(c, n, a.d, a.t);
    assert Shape(c, n);
    hide Inv, Shape, Enabled, Next, PcFits, Fails, LargestEntry, Sole, TransferTarget, LoadOf, Weight, QueueLoad;
    TransferMoves(c, n, a);
    TransferWeights(c, n, a);
    MovesKeepSole(n, m, a.t, to);
    LoadOfUpdate(c, n.ds[0].threads, a.t, to, true);
  }

  lemma TransferWeights(c: Config, n: Node, a: Action)
    requires OfTransfer(a) && Enabled(c, n, a) && PcFits(c, PcOf(n, a.d, a.t))
    ensures var pc, to := PcOf(n, a.d, a.t), TransferTarget(c, n, a);
            && !to.Claiming?
            && if Fails(c, n, a) then Weight(c, to, true) <= 2 + LargestEntry(c, |c.plan|)
               else Weight(c, to, true) < Weight(c, pc, true)
  {
    var pc := PcOf(n, a.d, a.t);
    if pc.Writing? && pc.k < |c.plan[pc.i]| { BoundWithin(c, pc.i, pc.k + 1); }
    hide Bound, Addrs, Accepted;
  }

  lemma HandOverCounts(c: Config, n: Node, d: nat, t: nat)
    requires Sole(n) && Thread(n, d, 0) && Thread(n, d, t) && t > 0 && PcOf(n, d, 0).Sending? && PcOf(n, d, t).Waiting?
    ensures Sole(DoHandOver(n, d, t)) && Rest(c, DoHandOver(n, d, t).ds[0]) < Rest(c, n.ds[0])
  {
    HandOverThreads(n, d, t);
    HandOverLowersRest(c, n, d, t);
    hide DoHandOver, Rest, IsDone;
  }

  lemma FlagCounts(c: Config, n: Node, a: Action)
    requires Shape(c, n) && Sole(n) && Enabled(c, n, a) && (a.Cancel? || a.Invalidate? || a.FillCache?)
    ensures Sole(Next(c, n, a)) && Rest(c, Next(c, n, a).ds[0]) == Rest(c, n.ds[0])
  {
    hide Shape, IsDone, LoadOf, QueueLoad;
  }

  /** Every step of a node with a single, local downloader: it fails and puts at most one chunk back,
      or it spins and leaves all as it is, or it leaves less to do. */
  lemma NextCounts(c: Config, n: Node, a: Action)
    requires Inv(c, n) && Sole(n) && Enabled(c, n, a) && !a.Spawn?
    ensures var m := Next(c, n, a);
            && Sole(m)
            && if Fails(c, n, a) then Rest(c, m.ds[0]) <= Rest(c, n.ds[0]) + 2 + LargestEntry(c, |c.plan|)
               else if Spins(n, a) then Rest(c, m.ds[0]) == Rest(c, n.ds[0])
               else Rest(c, m.ds[0]) < Rest(c, n.ds[0])
  {
    assert Shape(c, n);
    assert |n.status| == |c.plan| && |n.ds| == 1 && n.ds[0].kind.Local?;
    hide Inv, Sole, Rest, LargestEntry, Shape, DoHandOver;
    match a {
      case Step(d, t) => hide Next; StepCounts(c, n, d, t);
      case HandOver(d, t) => HandOverCounts(c, n, d, t);
      case Poll(_, _) =>
      case _ => hide Next, Fails, Enabled; if OfTransfer(a) { TransferCounts(c, n, a); } else { FlagCounts(c, n, a); }
    }
  }

  // Counting over a run -----------------------------------------------------------------------

  /** Move `x` is a step of node `a` that makes an attempt fail. */
  ghost predicate FailsAt(c: Config, run: seq<Swarm>, taken: seq<Move>, a: nat, x: nat) {
    x < |taken| && x < |run| && a < |run[x]| && taken[x].who == a && Fails(c, run[x][a], taken[x].a)
  }

  /** Move `x` is a step of node `a` that does some work. */
  ghost predicate WorksAt(c: Config, run: seq<Swarm>, taken: seq<Move>, a: nat, x: nat) {
    x < |taken| && x < |run| && a < |run[x]| && taken[x].who == a &&
    !Fails(c, run[x][a], taken[x].a) && !Spins(run[x][a], taken[x].a)
  }

  ghost function Failures(c: Config, run: seq<Swarm>, taken: seq<Move>, a: nat, j: nat, k: nat): nat
    decreases k
  {
    if k <= j then 0 else Failures(c, run, taken, a, j, k - 1) + if FailsAt(c, run, taken, a, k - 1) then 1 else 0
  }

  ghost function Worksteps(c: Config, run: seq<Swarm>, taken: seq<Move>, a: nat, j: nat, k: nat): nat
    decreases k
  {
    if k <= j then 0 else Worksteps(c, run, taken, a, j, k - 1) + if WorksAt(c, run, taken, a, k - 1) then 1 else 0
  }

  ghost predicate SoleAt(run: seq<Swarm>, x: nat, a: nat) {
    x < |run| && a < |run[x]| && Sole(run[x][a])
  }

  ghost predicate NoSpawns(taken: seq<Move>, a: nat, j: nat, k: nat) {
    forall x | j <= x < k && x < |taken| && taken[x].who == a :: !taken[x].a.Spawn?
  }

  /** The work left for the node's downloader. */
  ghost function RestAt(c: Config, run: seq<Swarm>, x: nat, a: nat): nat {
    if SoleAt(run, x, a) then Rest(c, run[x][a].ds[0]) else 0
  }

  /** What one failure can cost. */
  ghost function FailureCost(c: Config): nat {
    2 + LargestEntry(c, |c.plan|)
  }

  lemma MoveCounts(c: Config, sizes: seq<int>, run: seq<Swarm>, taken: seq<Move>, a: nat, x: nat)
    requires Trusted(c, sizes) && Run(c, run, taken) && x < |taken| && SoleAt(run, x, a)
    requires taken[x].who == a ==> !taken[x].a.Spawn?
    ensures SoleAt(run, x + 1, a)
    ensures var before, after := RestAt(c, run, x, a), RestAt(c, run, x + 1, a);
            if FailsAt(c, run, taken, a, x) then after <= before + FailureCost(c) && !WorksAt(c, run, taken, a, x)
            else if WorksAt(c, run, taken, a, x) then after < before
            else after == before
  {
    StepOfRun(c, run, taken, x);
    RunHolds(c, sizes, run, taken, x);
    var s, m := run[x], taken[x];
    assert Inv(c, s[m.who]) && Shape(c, s[m.who]) && Enabled(c, s[m.who], m.a);
    hide Run, Trusted, SwarmInv, Inv, Shape, Enabled, Allowed, Next, Sole, Rest, Fails, Spins, LargestEntry;
    if m.who == a { NextCounts(c, s[a], m.a); }
  }

  /** The work done between two states of a run is what was left at the first, less what is left at the
      second, plus at most `FailureCost` for each failure: with finitely many failures, only finitely
      many steps do work. */
  lemma {:induction false} WorkIsBounded(c: Config, sizes: seq<int>, run: seq<Swarm>, taken: seq<Move>, a: nat, j: nat, k: nat)
    requires Trusted(c, sizes) && Run(c, run, taken) && j <= k <= |taken| && SoleAt(run, j, a) && NoSpawns(taken, a, j, k)
    ensures SoleAt(run, k, a)
    ensures Worksteps(c, run, taken, a, j, k) + RestAt(c, run, k, a)
         <= RestAt(c, run, j, a) + Failures(c, run, taken, a, j, k) * FailureCost(c)
    decreases k
  {
    hide Run, Trusted, RestAt, SoleAt, FailsAt, WorksAt, FailureCost;
    if j < k {
      WorkIsBounded(c, sizes, run, taken, a, j, k - 1);
      MoveCounts(c, sizes, run, taken, a, k - 1);
      Account(Worksteps(c, run, taken, a, j, k - 1), RestAt(c, run, k - 1, a), RestAt(c, run, k, a),
              RestAt(c, run, j, a), Failures(c, run, taken, a, j, k - 1), FailureCost(c),
              FailsAt(c, run, taken, a, k - 1), WorksAt(c, run, taken, a, k - 1));
    }
  }

  lemma Account(works: nat, before: nat, after: nat, start: nat, failures: nat, cost: nat, fails: bool, isWork: bool)
    requires works + before <= start + failures * cost
    requires if fails then after <= before + cost && !isWork else if isWork then after < before else after == before
    ensures works + (if isWork then 1 else 0) + after <= start + (failures + if fails then 1 else 0) * cost
  {
    assert (failures + 1) * cost == failures * cost + cost;
  }

  /** The local downloader starts with the full list, and with work that depends on the plan only. */
  lemma SpawnIsSole(c: Config, n: Node, queue: seq<nat>, workers: nat)
    requires Shape(c, n) && n.ds == [] && Enabled(c, n, Spawn(Kind.Local, queue, workers))
    ensures var m := Next(c, n, Spawn(Kind.Local, queue, workers));
            && Sole(m) && KnowsAll(c, m, 0) && Rest(c, m.ds[0]) <= |c.plan| * LargestEntry(c, |c.plan|) + 2
            && |m.ds[0].threads| == workers + 1 && m.ds[0].queue == queue
            && forall t | 0 < t <= workers :: m.ds[0].threads[t].Waiting?
  {
    var m := DoSpawn(c, n, Kind.Local, queue, workers);
    var threads := [FirstPc(c)] + seq(workers, _ => Waiting);
    assert m.ds[0].threads == threads && m.ds[0].queue == queue && m.ds[0].known == Elements(queue);
    hide Shape, DoSpawn, LoadOf, QueueLoad, LargestEntry;
    FullListLoad(c, queue);
    FirstLoad(c, workers);
  }

  lemma FullListLoad(c: Config, queue: seq<nat>)
    requires IsListOfAll(queue, |c.plan|)
    ensures QueueLoad(c, queue) <= |c.plan| * LargestEntry(c, |c.plan|)
  {
    hide QueueEntry, QueueLoad;
    assert forall j | 0 <= j < |queue| :: QueueEntry(c, queue[j]) <= LargestEntry(c, |c.plan|);
    QueueLoadBound(c, queue, LargestEntry(c, |c.plan|));
  }

  lemma FirstLoad(c: Config, workers: nat)
    ensures LoadOf(c, [FirstPc(c)] + seq(workers, _ => Waiting), true) <= 2
  {
    var threads := [FirstPc(c)] + seq(workers, _ => Waiting);
    LoadOfUpdate(c, threads, 0, CheckValid, true);
    NoLoad(c, threads[0 := CheckValid], true);
    hide LoadOf;
  }

  /** When nothing is left to do, the node is completed. */
  lemma NothingLeftMeansCompleted(c: Config, sizes: seq<int>, run: seq<Swarm>, taken: seq<Move>, k: nat, a: nat)
    requires Trusted(c, sizes) && Run(c, run, taken) && k < |run| && SoleAt(run, k, a) && KnowsAll(c, run[k][a], 0)
    requires RestAt(c, run, k, a) == 0
    ensures run[k][a].completed
  {
    var n := run[k][a];
    RunHolds(c, sizes, run, taken, k);
    assert Inv(c, n);
    NoLoad(c, n.ds[0].threads, true);
    assert AtRest(n, 0);
    hide Run, Trusted, SwarmInv, Inv, AtRest, KnowsAll, LoadOf;
    if !n.completed { QueueIsNotEmpty(c, n, 0); }
  }
}
