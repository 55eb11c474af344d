/** Under a fair scheduler, a node with a single local downloader completes. Fairness speaks of turns
    only: that a turn brings the download on is proved. */
module LiveFairness {
  import opened Storing
  import opened ChunkWriting
  import opened Nodes
  import opened NodeInvariants
  import opened NodeSteps
  import opened Swarms
  import opened SwarmSafety
  import opened Weights
  import opened Liveness
  import opened LiveCompletion
  import opened LiveTermination
  import opened Turns

  // A node on its way ----------------------------------------------------------------------------

  ghost predicate Ended(n: Node) {
    n.completed || Finishing(n)
  }

  /** The node has its one local downloader, which knows all chunks; it has been cancelled, and its
      dispatcher has left the loop, only if the node is completed or about to be. */
  ghost predicate Steady(c: Config, n: Node) {
    && Sole(n) && KnowsAll(c, n, 0) && n.ds[0].valid
    && (n.cancelled ==> Ended(n)) && (Live(n, 0) || Ended(n))
  }

  predicate FromOutside(a: Action) {
    a.Spawn? || a.Cancel? || a.Invalidate?
  }

  lemma EndedStays(n: Node, m: Node, d: nat, t: nat, to: Pc)
    requires Worked(n, m, d, t, to) && Ended(n)
    ensures Ended(m)
  {
    hide QueueStep, StatusStep;
    if !n.completed {
      var e: nat, u: nat :| Thread(n, e, u) && PcOf(n, e, u).Completing?;
      if (e, u) != (d, t) { assert PcOf(m, e, u).Completing?; }
    }
  }

  lemma WorkedSteady(c: Config, n: Node, m: Node, t: nat, to: Pc)
    requires Steady(c, n) && Worked(n, m, 0, t, to) && Sole(m)
    requires PcOf(n, 0, t).Cancelling? ==> to.Completing?
    requires t == 0 && (to.Closing? || to.Exited?) ==> Ended(n)
    ensures Steady(c, m)
  {
    if Ended(n) { EndedStays(n, m, 0, t, to); }
    hide QueueStep, StatusStep, Sole;
    if PcOf(n, 0, t).Cancelling? { assert PcOf(m, 0, t).Completing?; }
    hide Ended;
    assert !Ended(n) ==> Live(n, 0);
  }

  lemma CancellingCompletes(c: Config, n: Node, t: nat)
    requires Steps(n, 0, t) && PcOf(n, 0, t).Cancelling?
    ensures Target(c, n, 0, t).Completing?
  {
  }

  lemma StepIsSteady(c: Config, n: Node, t: nat)
    requires Inv(c, n) && Steady(c, n) && Enabled(c, n, Step(0, t)) && Sole(Next(c, n, Step(0, t)))
    ensures Steady(c, Next(c, n, Step(0, t)))
  {
    hide Shape, Tokens, Owners, Counts;
    assert Shape(c, n);
    hide Inv, Steady, Sole, Worked, Next, Target, Enabled, Goes, CanStep, Ended, Thread, PcOf;
    StepWorks(c, n, 0, t);
    var to := Target(c, n, 0, t);
    if PcOf(n, 0, t).Cancelling? { CancellingCompletes(c, n, t); }
    if t == 0 { LeavesWhenEnded(c, n); }
    WorkedSteady(c, n, Next(c, n, Step(0, t)), t, to);
  }

  lemma LeavesWhenEnded(c: Config, n: Node)
    requires Inv(c, n) && Steady(c, n) && Enabled(c, n, Step(0, 0)) && Steps(n, 0, 0)
    ensures var to := Target(c, n, 0, 0); to.Closing? || to.Exited? ==> Ended(n)
  {
    hide Inv, Sole, KnowsAll, Ended, SomeWorkerIsReady, AllWorkersExited, Enabled;
    ThreadFacts(c, n, 0, 0);
    hide PcFits;
  }

  lemma HandOverIsSteady(c: Config, n: Node, t: nat)
    requires Shape(c, n) && Steady(c, n) && Enabled(c, n, HandOver(0, t)) && Sole(Next(c, n, HandOver(0, t)))
    ensures Steady(c, Next(c, n, HandOver(0, t)))
  {
    hide Shape;
    assert Next(c, n, HandOver(0, t)) == DoHandOver(n, 0, t);
    HandOverStays(n, 0, t);
    HandOverThreads(n, 0, t);
    hide Sole, DoHandOver, Finishing;
    assert Live(n, 0);
  }

  lemma TransferIsSteady(c: Config, n: Node, a: Action)
    requires Inv(c, n) && Steady(c, n) && OfTransfer(a) && Enabled(c, n, a) && Sole(Next(c, n, a))
    ensures Steady(c, Next(c, n, a))
  {
    assert Shape(c, n) && a.d == 0;
    hide Inv, Steady, Sole, Worked, Next, Enabled, Shape, TransferTarget;
    TransferWorked(c, n, a);
    WorkedSteady(c, n, Next(c, n, a), a.t, TransferTarget(c, n, a));
  }

  lemma CacheIsSteady(c: Config, n: Node, a: Action)
    requires Shape(c, n) && Steady(c, n) && Enabled(c, n, a) && a.FillCache?
    ensures Steady(c, Next(c, n, a))
  {
    hide Shape, IsDone;
    var m := Next(c, n, a);
    assert forall d: nat, t: nat | Thread(n, d, t) :: Thread(m, d, t) && PcOf(m, d, t) == PcOf(n, d, t);
  }

  lemma OneDownloader(c: Config, n: Node, a: Action)
    requires Sole(n) && Enabled(c, n, a) && !FromOutside(a)
    ensures !a.Poll? && (!a.FillCache? ==> a.d == 0)
  {
    hide Bound;
  }

  /** No step from inside makes the node unsteady. */
  lemma NextIsSteady(c: Config, n: Node, a: Action)
    requires Inv(c, n) && Steady(c, n) && Enabled(c, n, a) && !FromOutside(a)
    ensures Steady(c, Next(c, n, a))
  {
    assert Shape(c, n) && Sole(n);
    hide Inv, Steady, Sole, Shape, Enabled, Next;
    OneDownloader(c, n, a);
    StaysSole(c, n, a);
    match a {
      case Step(_, t) => StepIsSteady(c, n, t);
      case HandOver(_, t) => HandOverIsSteady(c, n, t);
      case FillCache(_, _) => CacheIsSteady(c, n, a);
      case _ => TransferIsSteady(c, n, a);
    }
  }

  lemma StaysSole(c: Config, n: Node, a: Action)
    requires Inv(c, n) && Sole(n) && Enabled(c, n, a) && !a.Spawn?
    ensures Sole(Next(c, n, a))
  {
    assert Shape(c, n);
    hide *;
    NextCounts(c, n, a);
  }

  // A goroutine that can go on --------------------------------------------------------------------

  /** Goroutine `t` is at `pc` and will be able to act there until it does: it has work of its own, or
      it is the dispatcher and can hand over, or everything else is at rest and it goes round its loop. */
  ghost predicate Poised(n: Node, t: nat, pc: Pc) {
    && Thread(n, 0, t) && PcOf(n, 0, t) == pc
    && ((!Idle(pc) && !pc.Sending?) || (t == 0 && pc.Sending? && SomeWorkerWaits(n, 0)) || (t == 0 && InLoop(pc) && AtRest(n, 0)))
  }

  lemma PoisedCanAct(n: Node, t: nat, pc: Pc)
    requires Poised(n, t, pc)
    ensures CanAct(n, 0, t)
  {
  }

  lemma OtherThreadMoves(n: Node, m: Node, t: nat, u: nat, to: Pc, pc: Pc)
    requires Poised(n, t, pc) && Thread(n, 0, u) && u != t && Worked(n, m, 0, u, to)
    requires pc.Sending? ==> !PcOf(n, 0, u).Waiting?
    requires Idle(pc) ==> !AtRest(n, 0)
    ensures Poised(m, t, pc)
  {
    hide QueueStep, StatusStep;
    if t == 0 && pc.Sending? {
      var w: nat :| Thread(n, 0, w) && w > 0 && PcOf(n, 0, w).Waiting?;
      assert Thread(m, 0, w) && PcOf(m, 0, w).Waiting?;
    }
  }

  /** While it waits for its turn, nobody else can take its place. */
  lemma StepLeavesPoised(c: Config, n: Node, t: nat, u: nat, pc: Pc)
    requires Inv(c, n) && Poised(n, t, pc) && Enabled(c, n, Step(0, u)) && u != t
    ensures Poised(Next(c, n, Step(0, u)), t, pc)
  {
    StepWorks(c, n, 0, u);
    ThreadFacts(c, n, 0, u);
    assert !(pc.Sending? && PcOf(n, 0, u).Waiting?) && !(Idle(pc) && AtRest(n, 0)) by {
      hide Inv, PcFits, Steps, Goes, Worked, Next, SomeWorkerWaits;
      assert AtRest(n, 0) ==> Idle(PcOf(n, 0, u));
    }
    hide Inv, Poised, Worked, Next, AtRest, Steps, Goes, Enabled, PcFits;
    OtherThreadMoves(n, Next(c, n, Step(0, u)), t, u, Target(c, n, 0, u), pc);
  }

  lemma TransferLeavesPoised(c: Config, n: Node, a: Action, t: nat, pc: Pc)
    requires Shape(c, n) && Poised(n, t, pc) && OfTransfer(a) && a.d == 0 && a.t != t && Enabled(c, n, a)
    ensures Poised(Next(c, n, a), t, pc)
  {
    hide Shape, Next, Enabled, Worked, TransferTarget, SomeWorkerWaits;
    TransferWorked(c, n, a);
    assert Idle(pc) ==> !AtRest(n, 0) by { assert !Idle(PcOf(n, 0, a.t)); }
    hide AtRest, Idle, Poised;
    OtherThreadMoves(n, Next(c, n, a), t, a.t, TransferTarget(c, n, a), pc);
  }

  lemma HandOverLeavesPoised(c: Config, n: Node, u: nat, t: nat, pc: Pc)
    requires Shape(c, n) && Poised(n, t, pc) && Enabled(c, n, HandOver(0, u)) && t != 0 && t != u
    ensures Poised(Next(c, n, HandOver(0, u)), t, pc)
  {
    hide Shape;
    HandOverThreads(n, 0, u);
    hide DoHandOver;
  }

  lemma CacheLeavesPoised(c: Config, n: Node, a: Action, t: nat, pc: Pc)
    requires Shape(c, n) && Poised(n, t, pc) && Enabled(c, n, a) && a.FillCache?
    ensures Poised(Next(c, n, a), t, pc)
  {
    hide Shape;
    var m := Next(c, n, a);
    assert forall d: nat, u: nat | Thread(n, d, u) :: Thread(m, d, u) && PcOf(m, d, u) == PcOf(n, d, u);
  }

  lemma NextLeavesPoised(c: Config, n: Node, a: Action, t: nat, pc: Pc)
    requires Inv(c, n) && Sole(n) && Poised(n, t, pc) && Enabled(c, n, a) && !FromOutside(a) && !ActsFor(a, 0, t)
    ensures Poised(Next(c, n, a), t, pc)
  {
    OneDownloader(c, n, a);
    hide Shape, Tokens, Owners, Counts, Sole, Poised, Next, Enabled;
    assert Shape(c, n);
    hide Inv;
    match a {
      case Step(_, u) => StepLeavesPoised(c, n, t, u, pc);
      case HandOver(_, u) => HandOverLeavesPoised(c, n, u, t, pc);
      case FillCache(_, _) => CacheLeavesPoised(c, n, a, t, pc);
      case _ => TransferLeavesPoised(c, n, a, t, pc);
    }
  }

  /** How many turns a goroutine needs at most from `pc` to some work. */
  function TurnsNeeded(pc: Pc): (r: nat)
    ensures r <= 4
  {
    if InLoop(pc) then Distance(pc) else 1
  }

  /** The dispatcher has gone on in its loop, and all is as it was. */
  lemma LoopIsPoised(c: Config, n: Node, m: Node, to: Pc)
    requires AtRest(n, 0) && Worked(n, m, 0, 0, to) && InLoop(to)
    ensures Poised(m, 0, to)
  {
    hide QueueStep, StatusStep;
  }

  /** A turn of a poised goroutine does some work, or makes an attempt fail, or takes the dispatcher
      one step nearer to its queue, which is not empty. */
  lemma TurnBringsOn(c: Config, n: Node, a: Action, t: nat, pc: Pc)
    requires Inv(c, n) && Steady(c, n) && !n.completed && Poised(n, t, pc) && Enabled(c, n, a) && ActsFor(a, 0, t)
    ensures Fails(c, n, a) || !Spins(n, a) ||
            (InLoop(pc) && exists to :: InLoop(to) && Distance(to) < Distance(pc) && Poised(Next(c, n, a), 0, to))
  {
    assert |n.ds| == 1;
    if a.Step? && InLoop(pc) && AtRest(n, 0) {
      StepIsOwn(c, n, a, t, pc);
      hide *;
      SoleIsAlone(n);
      LoopTurn(c, n);
    } else {
      hide *;
      ActingWorks(c, n, a, t, pc);
    }
  }

  lemma StepIsOwn(c: Config, n: Node, a: Action, t: nat, pc: Pc)
    requires |n.ds| == 1 && Poised(n, t, pc) && Enabled(c, n, a) && ActsFor(a, 0, t) && a.Step? && AtRest(n, 0)
    ensures Thread(n, 0, 0) && a == Step(0, 0) && pc == PcOf(n, 0, 0)
  {
    hide SomeWorkerWaits, CanStep;
  }

  lemma ActingWorks(c: Config, n: Node, a: Action, t: nat, pc: Pc)
    requires |n.ds| == 1 && Poised(n, t, pc) && Enabled(c, n, a) && ActsFor(a, 0, t)
    requires !(a.Step? && InLoop(pc) && AtRest(n, 0))
    ensures !Spins(n, a)
  {
    hide SomeWorkerWaits, AtRest, Bound;
  }

  lemma LoopTurn(c: Config, n: Node)
    requires Inv(c, n) && Steady(c, n) && !n.completed && OthersIdle(n, 0) && AtRest(n, 0) && Enabled(c, n, Step(0, 0))
    ensures InLoop(PcOf(n, 0, 0))
    ensures !Spins(n, Step(0, 0)) ||
            exists to :: InLoop(to) && Distance(to) < Distance(PcOf(n, 0, 0)) && Poised(Next(c, n, Step(0, 0)), 0, to)
  {
    NotEndedAtRest(n);
    assert Able(c, n, 0, Completion) && CancelledInside(n);
    LoopTarget(c, n, 0, Completion);
    StepWorks(c, n, 0, 0);
    var to := Target(c, n, 0, 0);
    hide Inv, Steady, AtRest, Worked, Next, Target, OthersIdle, Goes, Steps;
    if InLoop(to) { LoopIsPoised(c, n, Next(c, n, Step(0, 0)), to); }
  }

  lemma NotEndedAtRest(n: Node)
    requires OthersIdle(n, 0) && AtRest(n, 0) && !n.completed
    ensures !Ended(n)
  {
  }

  /** As long as the node is not completed, somebody is poised. */
  lemma SomebodyIsPoised(c: Config, n: Node) returns (t: nat)
    requires Inv(c, n) && Steady(c, n) && !n.completed
    ensures Thread(n, 0, t) && Poised(n, t, PcOf(n, 0, t))
  {
    assert |n.ds| == 1;
    t := RestsOrWorks(c, n, 0);
    if AtRest(n, 0) {
      SoleIsAlone(n);
      NotEndedAtRest(n);
      ThreadFacts(c, n, 0, 0) by { InvOf(c, n, 0); }
      t := 0;
    } else if !Works(c, n, 0, t) {
      assert SomeWorkerWaits(n, 0);
      t := 0;
    }
    hide Inv, Sole, KnowsAll, Ended, SomeWorkerWaits, PcFits;
  }

  // Fair runs -----------------------------------------------------------------------------------

  ghost predicate CompletedAt(run: seq<Swarm>, x: nat, a: nat) {
    x < |run| && a < |run[x]| && run[x][a].completed
  }

  /** Between states `j` and `k` nobody cancels the download of node `a`, and its downloader stays the
      only one and valid. */
  ghost predicate Undisturbed(taken: seq<Move>, a: nat, j: nat, k: nat) {
    forall x | j <= x < k && x < |taken| && taken[x].who == a :: !FromOutside(taken[x].a)
  }

  ghost predicate SteadyAt(c: Config, run: seq<Swarm>, x: nat, a: nat) {
    x < |run| && a < |run[x]| && Steady(c, run[x][a])
  }

  ghost predicate PoisedAt(run: seq<Swarm>, x: nat, a: nat, t: nat, pc: Pc) {
    x < |run| && a < |run[x]| && Poised(run[x][a], t, pc)
  }

  lemma {:induction false} CompletedStays(c: Config, sizes: seq<int>, run: seq<Swarm>, taken: seq<Move>, x: nat, k: nat, a: nat)
    requires Trusted(c, sizes) && Run(c, run, taken) && x <= k < |run| && CompletedAt(run, x, a)
    ensures CompletedAt(run, k, a)
    decreases k
  {
    hide Run, Trusted, SwarmInv, CanMove;
    if x < k {
      CompletedStays(c, sizes, run, taken, x, k - 1, a);
      StepOfRun(c, run, taken, k - 1);
      RunHolds(c, sizes, run, taken, k - 1);
      CompletedAfter(c, run[k - 1], taken[k - 1], a);
    }
  }

  lemma CompletedAfter(c: Config, s: Swarm, m: Move, a: nat)
    requires SwarmInv(c, s) && CanMove(c, s, m) && a < |s| && s[a].completed
    ensures After(c, s, m)[a].completed
  {
    assert Inv(c, s[m.who]) && Enabled(c, s[m.who], m.a);
    hide SwarmInv, Inv, Enabled, Allowed, Shape, Next;
    if m.who == a { NextKeepsCompleted(c, s[a], m.a); }
  }

  lemma NextKeepsCompleted(c: Config, n: Node, a: Action)
    requires Inv(c, n) && Enabled(c, n, a) && n.completed
    ensures Next(c, n, a).completed
  {
    if a.Step? {
      StepWorks(c, n, a.d, a.t);
      hide Next, Inv;
    } else {
      hide Inv, Enabled, Verdict, Put, FinishRange, Bound, Addrs;
    }
  }

  lemma MoveIsSteady(c: Config, sizes: seq<int>, run: seq<Swarm>, taken: seq<Move>, x: nat, a: nat)
    requires Trusted(c, sizes) && Run(c, run, taken) && x < |taken| && SteadyAt(c, run, x, a)
    requires taken[x].who == a ==> !FromOutside(taken[x].a)
    ensures SteadyAt(c, run, x + 1, a)
  {
    StepOfRun(c, run, taken, x);
    RunHolds(c, sizes, run, taken, x);
    var s, m := run[x], taken[x];
    assert Inv(c, s[m.who]) && Enabled(c, s[m.who], m.a);
    hide Run, Trusted, SwarmInv, Inv, Shape, Enabled, Allowed, Next, Steady;
    if m.who == a { NextIsSteady(c, s[a], m.a); }
  }

  lemma {:induction false} StaysSteady(c: Config, sizes: seq<int>, run: seq<Swarm>, taken: seq<Move>, a: nat, j: nat,
                                     x: nat, k: nat)
    requires Trusted(c, sizes) && Run(c, run, taken) && j <= x <= k < |run|
    requires SteadyAt(c, run, j, a) && Undisturbed(taken, a, j, k)
    ensures SteadyAt(c, run, x, a)
    decreases x
  {
    assert |run| == |taken| + 1;
    hide Run, Trusted, SteadyAt;
    if j < x {
      StaysSteady(c, sizes, run, taken, a, j, x - 1, k);
      MoveIsSteady(c, sizes, run, taken, x - 1, a);
    }
  }

  lemma MoveLeavesPoised(c: Config, sizes: seq<int>, run: seq<Swarm>, taken: seq<Move>, x: nat, a: nat, t: nat, pc: Pc)
    requires Trusted(c, sizes) && Run(c, run, taken) && x < |taken| && PoisedAt(run, x, a, t, pc) && SteadyAt(c, run, x, a)
    requires taken[x].who == a ==> !FromOutside(taken[x].a)
    requires !ActsAt(taken, x, a, 0, t)
    ensures PoisedAt(run, x + 1, a, t, pc)
  {
    StepOfRun(c, run, taken, x);
    RunHolds(c, sizes, run, taken, x);
    var s, m := run[x], taken[x];
    assert Inv(c, s[m.who]) && Enabled(c, s[m.who], m.a) && Sole(s[a]);
    hide Run, Trusted, SwarmInv, Inv, Shape, Enabled, Allowed, Next, Steady, Poised, Sole;
    if m.who == a { NextLeavesPoised(c, s[a], m.a, t, pc); }
  }

  /** Until its first turn, a poised goroutine stays poised. */
  lemma {:induction false} FirstTurn(c: Config, sizes: seq<int>, run: seq<Swarm>, taken: seq<Move>, a: nat, j: nat, k: nat,
                                     x: nat, y: nat, t: nat, pc: Pc) returns (z: nat)
    requires Trusted(c, sizes) && Run(c, run, taken) && j <= x <= y <= k < |run|
    requires SteadyAt(c, run, j, a) && Undisturbed(taken, a, j, k) && PoisedAt(run, x, a, t, pc)
    ensures x <= z <= y && PoisedAt(run, z, a, t, pc) && (z < y ==> ActsAt(taken, z, a, 0, t))
    decreases y
  {
    assert |run| == |taken| + 1;
    hide Run, Trusted, SteadyAt, PoisedAt, ActsAt;
    if x == y {
      z := y;
    } else {
      z := FirstTurn(c, sizes, run, taken, a, j, k, x, y - 1, t, pc);
      if z == y - 1 && !ActsAt(taken, z, a, 0, t) {
        StaysSteady(c, sizes, run, taken, a, j, z, k);
        MoveLeavesPoised(c, sizes, run, taken, z, a, t, pc);
        z := y;
      }
    }
  }

  /** In a fair run a poised goroutine acts within the window. */
  lemma TakesItsTurn(c: Config, sizes: seq<int>, run: seq<Swarm>, taken: seq<Move>, a: nat, j: nat, k: nat, window: nat,
                     x: nat, t: nat, pc: Pc) returns (z: nat)
    requires Trusted(c, sizes) && Run(c, run, taken) && j <= x && x + window <= k < |run|
    requires SteadyAt(c, run, j, a) && Undisturbed(taken, a, j, k) && PoisedAt(run, x, a, t, pc)
    requires Fair(run, taken, a, 0, j, k, window)
    ensures x <= z < x + window && PoisedAt(run, z, a, t, pc) && ActsAt(taken, z, a, 0, t)
  {
    assert GetsATurn(run, taken, a, 0, t, x, window);
    hide Run, Trusted, SteadyAt, ActsAt, CanActAt, Undisturbed, Fair, PoisedAt;
    var y: nat :| x <= y < x + window && (ActsAt(taken, y, a, 0, t) || !CanActAt(run, y, a, 0, t));
    z := FirstTurn(c, sizes, run, taken, a, j, k, x, y, t, pc);
    if z == y { CanActWhenPoised(run, y, a, t, pc); }
  }

  lemma CanActWhenPoised(run: seq<Swarm>, y: nat, a: nat, t: nat, pc: Pc)
    requires PoisedAt(run, y, a, t, pc)
    ensures CanActAt(run, y, a, 0, t)
  {
    hide Poised, CanAct;
    PoisedCanAct(run[y][a], t, pc);
  }

  ghost predicate EventAt(c: Config, run: seq<Swarm>, taken: seq<Move>, a: nat, x: nat) {
    WorksAt(c, run, taken, a, x) || FailsAt(c, run, taken, a, x)
  }

  lemma TurnAt(c: Config, sizes: seq<int>, run: seq<Swarm>, taken: seq<Move>, a: nat, x: nat, t: nat, pc: Pc)
    requires Trusted(c, sizes) && Run(c, run, taken) && x + 1 < |run| && SteadyAt(c, run, x, a) && !CompletedAt(run, x, a)
    requires PoisedAt(run, x, a, t, pc) && ActsAt(taken, x, a, 0, t)
    ensures EventAt(c, run, taken, a, x) ||
            (InLoop(pc) && exists to :: InLoop(to) && Distance(to) < Distance(pc) && PoisedAt(run, x + 1, a, 0, to))
  {
    StepOfRun(c, run, taken, x);
    RunHolds(c, sizes, run, taken, x);
    var s, m := run[x], taken[x];
    assert Inv(c, s[a]) && Enabled(c, s[a], m.a);
    hide Run, Trusted, SwarmInv, Inv, Shape, Enabled, Allowed, Next, Steady, Poised, Fails, Spins, ActsFor;
    TurnBringsOn(c, s[a], m.a, t, pc);
    if !EventAt(c, run, taken, a, x) {
      var to :| InLoop(to) && Distance(to) < Distance(pc) && Poised(Next(c, s[a], m.a), 0, to);
      assert PoisedAt(run, x + 1, a, 0, to);
    }
  }

  /** From a poised goroutine it takes at most `TurnsNeeded` windows to a step that works or fails. */
  lemma {:induction false} EventFollows(c: Config, sizes: seq<int>, run: seq<Swarm>, taken: seq<Move>, a: nat, j: nat, k: nat,
                                        window: nat, x: nat, t: nat, pc: Pc) returns (z: nat)
    requires Trusted(c, sizes) && Run(c, run, taken) && j <= x && x + TurnsNeeded(pc) * window <= k < |run|
    requires SteadyAt(c, run, j, a) && Undisturbed(taken, a, j, k) && PoisedAt(run, x, a, t, pc)
    requires Fair(run, taken, a, 0, j, k, window) && !CompletedAt(run, k, a)
    ensures x <= z < x + TurnsNeeded(pc) * window && EventAt(c, run, taken, a, z)
    decreases TurnsNeeded(pc)
  {
    hide Run, Trusted, SteadyAt, ActsAt, Undisturbed, Fair, PoisedAt, CompletedAt, EventAt;
    OneTurnFits(TurnsNeeded(pc), window);
    z := TakesItsTurn(c, sizes, run, taken, a, j, k, window, x, t, pc);
    if CompletedAt(run, z, a) { CompletedStays(c, sizes, run, taken, z, k, a); }
    StaysSteady(c, sizes, run, taken, a, j, z, k);
    TurnAt(c, sizes, run, taken, a, z, t, pc);
    if !EventAt(c, run, taken, a, z) {
      var to :| InLoop(to) && Distance(to) < Distance(pc) && PoisedAt(run, z + 1, a, 0, to);
      TurnsLeft(TurnsNeeded(to), TurnsNeeded(pc), window);
      z := EventFollows(c, sizes, run, taken, a, j, k, window, z + 1, 0, to);
    }
  }

  lemma OneTurnFits(turns: nat, window: nat)
    requires turns >= 1
    ensures window <= turns * window
  {
    TurnsLeft(0, turns, window);
  }

  lemma TurnsLeft(fewer: nat, turns: nat, window: nat)
    requires fewer < turns
    ensures fewer * window + window <= turns * window
  {
    TimesMore(fewer + 1, turns, window);
    assert (fewer + 1) * window == fewer * window + window;
  }

  // Counting events --------------------------------------------------------------------------------

  ghost function Events(c: Config, run: seq<Swarm>, taken: seq<Move>, a: nat, j: nat, k: nat): nat {
    Worksteps(c, run, taken, a, j, k) + Failures(c, run, taken, a, j, k)
  }

  lemma {:induction false} EventCounts(c: Config, run: seq<Swarm>, taken: seq<Move>, a: nat, j: nat, y: nat, k: nat)
    requires j <= y <= k
    ensures Events(c, run, taken, a, j, k) >= Events(c, run, taken, a, j, y)
    ensures y < k && EventAt(c, run, taken, a, y) ==> Events(c, run, taken, a, j, k) > Events(c, run, taken, a, j, y)
    decreases k
  {
    hide WorksAt, FailsAt;
    if y < k { EventCounts(c, run, taken, a, j, y, k - 1); }
  }

  lemma SomebodyAt(c: Config, run: seq<Swarm>, x: nat, a: nat) returns (t: nat)
    requires SteadyAt(c, run, x, a) && !CompletedAt(run, x, a) && SwarmInv(c, run[x])
    ensures x < |run| && a < |run[x]| && Thread(run[x][a], 0, t) && PoisedAt(run, x, a, t, PcOf(run[x][a], 0, t))
  {
    assert Inv(c, run[x][a]);
    hide SwarmInv, Inv, Steady, Poised;
    t := SomebodyIsPoised(c, run[x][a]);
  }

  /** Four windows of an uncompleted fair run hold at least one event. */
  lemma WindowsBringOn(c: Config, sizes: seq<int>, run: seq<Swarm>, taken: seq<Move>, a: nat, j: nat, k: nat,
                       window: nat, x: nat)
    requires Trusted(c, sizes) && Run(c, run, taken) && j <= x && x + 4 * window <= k < |run|
    requires SteadyAt(c, run, j, a) && Undisturbed(taken, a, j, k) && Fair(run, taken, a, 0, j, k, window)
    requires !CompletedAt(run, k, a)
    ensures Events(c, run, taken, a, j, x + 4 * window) > Events(c, run, taken, a, j, x)
  {
    hide *;
    var t, pc := PoisedDuring(c, sizes, run, taken, a, j, k, x);
    TimesMore(TurnsNeeded(pc), 4, window);
    var z := EventFollows(c, sizes, run, taken, a, j, k, window, x, t, pc);
    EventCounts(c, run, taken, a, j, x, z);
    EventCounts(c, run, taken, a, j, z, x + 4 * window);
  }

  lemma PoisedDuring(c: Config, sizes: seq<int>, run: seq<Swarm>, taken: seq<Move>, a: nat, j: nat, k: nat, x: nat)
    returns (t: nat, pc: Pc)
    requires Trusted(c, sizes) && Run(c, run, taken) && j <= x <= k < |run|
    requires SteadyAt(c, run, j, a) && Undisturbed(taken, a, j, k) && !CompletedAt(run, k, a)
    ensures PoisedAt(run, x, a, t, pc)
  {
    hide Run, Trusted, SwarmInv, SteadyAt, Undisturbed, PoisedAt, CompletedAt;
    if CompletedAt(run, x, a) { CompletedStays(c, sizes, run, taken, x, k, a); }
    StaysSteady(c, sizes, run, taken, a, j, x, k);
    RunHolds(c, sizes, run, taken, x);
    t := SomebodyAt(c, run, x, a);
    pc := PcOf(run[x][a], 0, t);
  }

  /** So many moves are `w` times four windows. */
  function Moves(w: nat, window: nat): nat {
    w * (4 * window)
  }

  lemma MoreMoves(w: nat, window: nat)
    requires w > 0
    ensures Moves(w - 1, window) + 4 * window == Moves(w, window)
  {
  }

  lemma {:induction false} EventsGrow(c: Config, sizes: seq<int>, run: seq<Swarm>, taken: seq<Move>, a: nat, j: nat, k: nat,
                                      window: nat, w: nat)
    requires Trusted(c, sizes) && Run(c, run, taken) && j + Moves(w, window) <= k < |run|
    requires SteadyAt(c, run, j, a) && Undisturbed(taken, a, j, k) && Fair(run, taken, a, 0, j, k, window)
    requires !CompletedAt(run, k, a)
    ensures Events(c, run, taken, a, j, j + Moves(w, window)) >= w
    decreases w
  {
    hide *;
    if w > 0 {
      MoreMoves(w, window);
      EventsGrow(c, sizes, run, taken, a, j, k, window, w - 1);
      WindowsBringOn(c, sizes, run, taken, a, j, k, window, j + Moves(w - 1, window));
    }
  }

  /** More steps of work than this are not possible with so many failures. */
  ghost function WorkLimit(c: Config, run: seq<Swarm>, j: nat, a: nat, failures: nat): nat {
    RestAt(c, run, j, a) + failures * FailureCost(c)
  }

  lemma WorkIsLimited(c: Config, sizes: seq<int>, run: seq<Swarm>, taken: seq<Move>, a: nat, j: nat, k: nat, failures: nat)
    requires Trusted(c, sizes) && Run(c, run, taken) && j <= k < |run| && SoleAt(run, j, a) && NoSpawns(taken, a, j, k)
    requires Failures(c, run, taken, a, j, k) <= failures
    ensures Worksteps(c, run, taken, a, j, k) <= WorkLimit(c, run, j, a, failures)
  {
    assert |run| == |taken| + 1;
    hide Run, Trusted, RestAt, FailureCost, Failures, Worksteps, SoleAt, NoSpawns;
    WorkIsBounded(c, sizes, run, taken, a, j, k);
    TimesMore(Failures(c, run, taken, a, j, k), failures, FailureCost(c));
  }

  lemma SteadyIsSole(c: Config, run: seq<Swarm>, x: nat, a: nat)
    requires SteadyAt(c, run, x, a)
    ensures SoleAt(run, x, a)
  {
    hide Sole;
  }

  /** Every run of a single local downloader comes to an end, and there the node is completed: if nobody
      interferes from outside, every goroutine that can act gets its turn within every `window` moves,
      and at most `failures` attempts fail, then the node is completed after so many moves at the latest. */
  lemma FairRunsComplete(c: Config, sizes: seq<int>, run: seq<Swarm>, taken: seq<Move>,
                         a: nat, j: nat, k: nat, window: nat, failures: nat)
    requires Trusted(c, sizes) && Run(c, run, taken) && j <= k < |run|
    requires SteadyAt(c, run, j, a) && Undisturbed(taken, a, j, k) && Fair(run, taken, a, 0, j, k, window)
    requires Failures(c, run, taken, a, j, k) <= failures
    requires k - j >= Moves(WorkLimit(c, run, j, a, failures) + failures + 1, window)
    ensures CompletedAt(run, k, a)
  {
    var w := WorkLimit(c, run, j, a, failures) + failures + 1;
    hide Run, Trusted, SteadyAt, Fair, WorkLimit, Failures, Worksteps, CompletedAt, Moves;
    if !CompletedAt(run, k, a) {
      EventsGrow(c, sizes, run, taken, a, j, k, window, w);
      EventCounts(c, run, taken, a, j, j + Moves(w, window), k);
      SteadyIsSole(c, run, j, a);
      WorkIsLimited(c, sizes, run, taken, a, j, k, failures);
    }
  }

  /** The local downloader of a node starts on its way. */
  lemma SpawnIsSteady(c: Config, n: Node, queue: seq<nat>, workers: nat)
    requires Shape(c, n) && n.ds == [] && !n.cancelled && Enabled(c, n, Spawn(Kind.Local, queue, workers))
    ensures Steady(c, Next(c, n, Spawn(Kind.Local, queue, workers)))
  {
    SpawnIsSole(c, n, queue, workers);
    var m := DoSpawn(c, n, Kind.Local, queue, workers);
    assert m.ds[0].threads[0] == FirstPc(c);
    hide Shape, Enabled, Sole, KnowsAll, Finishing;
  }
}
