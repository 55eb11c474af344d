/** From every reachable state in which a live, valid, uncancelled downloader knows all chunks, a
    fault-free continuation of bounded length completes the node. */
module LiveCompletion {
  import opened Plans
  import opened Storing
  import opened ChunkWriting
  import opened Nodes
  import opened Options
  import opened NodeInvariants
  import opened NodeSteps
  import opened Swarms
  import opened SwarmSafety
  import opened Weights
  import opened Liveness

  /** Only downloader `d` is at work. */
  ghost predicate OthersIdle(n: Node, d: nat) {
    d < |n.ds| && forall e: nat, u: nat | Thread(n, e, u) && e != d :: Idle(PcOf(n, e, u))
  }

  /** Nothing that the goroutine has done so far can make it fail. */
  ghost predicate Promising(c: Config, n: Node, pc: Pc) {
    match pc
    case Claiming(i) => !IsDone(n.status, i)
    case Failing(_) => false
    case PushingBack(_) => false
    case Writing(_, _, _, _) => Uncorrupted(c, pc)
    case _ => true
  }

  ghost predicate Alone(c: Config, n: Node, d: nat) {
    OthersIdle(n, d) && forall t: nat | t < |n.ds[d].threads| :: Promising(c, n, n.ds[d].threads[t])
  }

  /** When one downloader works alone, nobody else has claimed the chunk that it has in hand. */
  lemma NotTaken(c: Config, n: Node, d: nat, t: nat, i: nat)
    requires Inv(c, n) && OthersIdle(n, d) && Thread(n, d, t)
    requires Token(PcOf(n, d, t)) == Some(i) && Claim(PcOf(n, d, t)).None?
    ensures i < |n.status| ==> !n.status[i].Downloading?
  {
    hide Inv, OthersIdle, Token, Claim;
    if i < |n.status| && n.status[i].Downloading? {
      var e, u := OwnerOf(c, n, i);
      OwnerIsAtWork(n, d, e, u, i);
      OneHolder(c, n, d, t, u, i);
    }
  }

  lemma OwnerIsAtWork(n: Node, d: nat, e: nat, u: nat, i: nat)
    requires OthersIdle(n, d) && Thread(n, e, u) && Claim(PcOf(n, e, u)) == Some(i)
    ensures e == d && Token(PcOf(n, e, u)) == Some(i)
  {
  }

  lemma NoConflict(c: Config, n: Node, d: nat, t: nat)
    requires Inv(c, n) && OthersIdle(n, d) && Thread(n, d, t)
    requires PcOf(n, d, t).Claiming? ==> !IsDone(n.status, PcOf(n, d, t).i)
    ensures !Conflict(n, PcOf(n, d, t))
  {
    var pc := PcOf(n, d, t);
    hide Inv, OthersIdle;
    if pc.Popped? || pc.Claiming? { NotTaken(c, n, d, t, pc.i); }
  }

  lemma OwnerOf(c: Config, n: Node, i: nat) returns (e: nat, u: nat)
    requires Inv(c, n) && i < |n.status| && n.status[i].Downloading?
    ensures Thread(n, e, u) && Claim(PcOf(n, e, u)) == Some(i)
  {
    e, u := n.owner[i].0, n.owner[i].1;
  }

  lemma OneHolder(c: Config, n: Node, d: nat, t: nat, u: nat, i: nat)
    requires Inv(c, n) && Thread(n, d, t) && Thread(n, d, u)
    requires Token(PcOf(n, d, t)) == Some(i) && Token(PcOf(n, d, u)) == Some(i)
    ensures t == u
  {
    hide Token, Shape, Owners, Counts;
    assert TokensOf(n.ds[d]);
  }

  /** A goroutine at work alone goes on to a position that is promising again. */
  lemma TargetIsPromising(c: Config, n: Node, d: nat, t: nat)
    requires Works(c, n, d, t) && PcFits(c, PcOf(n, d, t)) && |n.status| == |c.plan|
    requires Promising(c, n, PcOf(n, d, t)) && !Conflict(n, PcOf(n, d, t)) && PcHolds(c, n.store, PcOf(n, d, t))
    ensures Promising(c, n, WorkTarget(c, n, d, t)) && !WorkTarget(c, n, d, t).Failing?
  {
    var pc := PcOf(n, d, t);
    if pc.Writing? {
      WritingGoesOn(c, n, d, t);
      hide Addrs, SourceBytes, Bound, Missing, Uncorrupted, Content, Accepted, PcHolds, PcFits;
    } else {
      hide Addrs, SourceBytes, SomeWorkerIsReady, Expected;
    }
  }

  lemma OthersStillIdle(n: Node, m: Node, d: nat)
    requires OthersIdle(n, d) && |m.ds| == |n.ds| && m.ds == n.ds[d := m.ds[d]]
    ensures OthersIdle(m, d)
  {
    hide Idle;
    assert forall e: nat, u: nat | Thread(m, e, u) && e != d :: Thread(n, e, u) && PcOf(m, e, u) == PcOf(n, e, u);
  }

  /** Another goroutine of the downloader remains promising: its chunk does not become Done. */
  lemma StillPromising(c: Config, n: Node, m: Node, d: nat, t: nat, u: nat)
    requires Inv(c, n) && Thread(n, d, t) && Thread(n, d, u) && t != u && Promising(c, n, PcOf(n, d, u))
    requires StatusStep(n.status, PcOf(n, d, t), m.status)
    ensures Promising(c, m, PcOf(n, d, u))
  {
    hide Inv, Addrs, SourceBytes;
    var pc, other := PcOf(n, d, t), PcOf(n, d, u);
    if other.Claiming? && pc == Publishing(other.i) { OneHolder(c, n, d, t, u, other.i); }
  }

  lemma TargetClaims(c: Config, n: Node, m: Node, d: nat, t: nat)
    requires Works(c, n, d, t) && PcFits(c, PcOf(n, d, t)) && |n.status| == |c.plan|
    requires Promising(c, n, WorkTarget(c, n, d, t)) && StatusStep(n.status, PcOf(n, d, t), m.status)
    ensures Promising(c, m, WorkTarget(c, n, d, t))
  {
    hide Bound, SourceBytes, Addrs, SomeWorkerIsReady, Expected, Missing;
  }

  lemma WorkKeepsAlone(c: Config, n: Node, m: Node, d: nat, t: nat)
    requires Inv(c, n) && Alone(c, n, d) && Works(c, n, d, t) && PcFits(c, PcOf(n, d, t)) && |n.status| == |c.plan|
    requires Worked(n, m, d, t, WorkTarget(c, n, d, t)) && PcHolds(c, n.store, PcOf(n, d, t))
    ensures Alone(c, m, d)
  {
    var to := WorkTarget(c, n, d, t);
    assert Promising(c, n, PcOf(n, d, t));
    assert PcOf(n, d, t).Claiming? ==> !IsDone(n.status, PcOf(n, d, t).i);
    hide Inv, OthersIdle, Promising, Works, PcFits, PcHolds, WorkTarget, QueueStep, StatusStep, IsDone, Conflict;
    NoConflict(c, n, d, t);
    TargetIsPromising(c, n, d, t);
    TargetClaims(c, n, m, d, t);
    OthersStillIdle(n, m, d);
    forall u: nat | u < |m.ds[d].threads| ensures Promising(c, m, m.ds[d].threads[u]) {
      if u != t { StillPromising(c, n, m, d, t, u); }
    }
  }

  lemma SameWeight(c: Config, pc: Pc)
    requires !pc.Failing? && !pc.PushingBack?
    ensures Weight(c, pc, true) == Weight(c, pc, false)
  {
  }

  /** Working alone, every piece of work leaves less to do, queue included. */
  lemma WorkLowersRest(c: Config, n: Node, m: Node, d: nat, t: nat)
    requires Inv(c, n) && Alone(c, n, d) && Works(c, n, d, t) && PcFits(c, PcOf(n, d, t)) && |n.status| == |c.plan|
    requires Worked(n, m, d, t, WorkTarget(c, n, d, t)) && PcHolds(c, n.store, PcOf(n, d, t))
    requires Enabled(c, n, WorkOf(c, n, d, t))
    ensures Rest(c, m.ds[d]) < Rest(c, n.ds[d])
  {
    var pc, to := PcOf(n, d, t), WorkTarget(c, n, d, t);
    assert Promising(c, n, pc);
    assert pc.Claiming? ==> !IsDone(n.status, pc.i);
    if pc.Requesting? || pc.Writing? {
      hide Inv, OthersIdle, PcFits, PcHolds, StatusStep, IsDone, Conflict, Weight, LoadOf, Enabled, Idle, Works,
        WorkTarget, WorkOf, Promising;
      NoConflict(c, n, d, t);
      TargetIsPromising(c, n, d, t);
      TransferLowersWeight(c, n, d, t);
      PromisingGoesOn(c, n, to);
      SameWeight(c, pc);
      SameWeight(c, to);
      LoadOfUpdate(c, n.ds[d].threads, t, to, true);
    } else {
      assert to == Target(c, n, d, t) && WorkOf(c, n, d, t) == Step(d, t) && !Idle(pc);
      hide Inv, OthersIdle, PcFits, PcHolds, StatusStep, QueueStep, IsDone, Conflict, Rest, Enabled, Idle, Target;
      NoConflict(c, n, d, t);
      CanStepFacts(c, n, d, t);
      StepLowersRest(c, n, m, d, t);
    }
  }

  lemma PromisingGoesOn(c: Config, n: Node, pc: Pc)
    requires Promising(c, n, pc)
    ensures !pc.Failing? && !pc.PushingBack?
  {
  }

  lemma HandOverKeepsAlone(c: Config, n: Node, d: nat, t: nat)
    requires Inv(c, n) && Alone(c, n, d) && Thread(n, d, t) && t > 0 && PcOf(n, d, 0).Sending? && PcOf(n, d, t).Waiting?
    ensures Alone(c, DoHandOver(n, d, t), d)
  {
    hide Inv, DoHandOver, OthersIdle, Addrs, SourceBytes;
    HandOverThreads(n, d, t);
    OthersStillIdle(n, DoHandOver(n, d, t), d);
  }

  lemma HandOverLowersRest(c: Config, n: Node, d: nat, t: nat)
    requires Thread(n, d, 0) && Thread(n, d, t) && t > 0 && PcOf(n, d, 0).Sending? && PcOf(n, d, t).Waiting?
    ensures d < |DoHandOver(n, d, t).ds| && Rest(c, DoHandOver(n, d, t).ds[d]) < Rest(c, n.ds[d])
  {
    HandOverThreads(n, d, t);
    LoadOfUpdate(c, n.ds[d].threads, 0, CheckValid, true);
    LoadOfUpdate(c, n.ds[d].threads[0 := CheckValid], t, Received(PcOf(n, d, 0).i), true);
    hide LoadOf, DoHandOver, Cost;
  }

  // The dispatcher's loop, when nothing else is to be done -----------------------------------

  ghost predicate KnowsAll(c: Config, n: Node, d: nat) {
    d < |n.ds| && forall i: nat | i < |c.plan| :: i in n.ds[d].known
  }

  /** What a downloader is to achieve: the whole download, or one chunk. */
  datatype Goal = Completion | Fetch(i: nat)

  ghost predicate Reached(n: Node, goal: Goal) {
    match goal
    case Completion => n.completed
    case Fetch(i) => i < |n.status| && n.status[i].Done?
  }

  /** A downloader that can reach the goal: it runs, it may, and it knows of the chunks. */
  ghost predicate Able(c: Config, n: Node, d: nat, goal: Goal) {
    Live(n, d) && n.ds[d].valid &&
    match goal
    case Completion => KnowsAll(c, n, d)
    case Fetch(i) => !n.serveOnly && i in n.ds[d].known
  }

  ghost predicate AtRest(n: Node, d: nat) {
    d < |n.ds| && forall t: nat | t < |n.ds[d].threads| :: Idle(n.ds[d].threads[t])
  }

  lemma {:induction false} FullSet(s: set<nat>, n: nat)
    requires forall i: nat | i < n :: i in s
    ensures |s| >= n
  {
    if n > 0 {
      FullSet(s - {n - 1}, n - 1);
    }
  }

  /** All goroutines at rest and the node not completed: some chunk is still in the queue. */
  lemma QueueIsNotEmpty(c: Config, n: Node, d: nat)
    requires Inv(c, n) && KnowsAll(c, n, d) && AtRest(n, d) && !n.completed
    ensures n.ds[d].queue != []
  {
    var dl := n.ds[d];
    InvOf(c, n, d);
    CountAtRest(c, n, d);
    hide Inv, Shape, Tokens, Owners, Counts, DownloaderFits, CountsOf, NoDuplicates;
    if dl.queue == [] {
      forall i: nat | i < |c.plan| ensures i in dl.counted {
        HeldIsBusy(dl, i);
      }
      FullSet(dl.counted, |c.plan|);
    }
  }

  /** A chunk that the downloader knows and that is not Done is in its queue. */
  lemma ChunkIsQueued(c: Config, n: Node, d: nat, i: nat)
    requires Inv(c, n) && AtRest(n, d) && i in n.ds[d].known && !IsDone(n.status, i)
    ensures n.ds[d].queue != []
  {
    var dl := n.ds[d];
    InvOf(c, n, d);
    hide Inv, Shape, Tokens, Owners, Counts, DownloaderFits, NoDuplicates, Idle;
    HeldIsBusy(dl, i);
  }

  lemma KnownIsOfPlan(c: Config, n: Node, d: nat, i: nat)
    requires Inv(c, n) && d < |n.ds| && i in n.ds[d].known
    ensures i < |n.status| == |c.plan|
  {
    assert DownloaderFits(c, n.ds[d]);
    hide PcFits;
  }

  lemma NotYetCompleted(c: Config, n: Node, i: nat)
    requires Inv(c, n) && !n.serveOnly && i < |n.status| && !n.status[i].Done?
    ensures !n.completed
  {
    hide Shape, Tokens, Owners, CountsOf;
  }

  /** Short of its goal a downloader at rest has something in its queue, and the node is not completed. */
  lemma QueueHolds(c: Config, n: Node, d: nat, goal: Goal)
    requires Inv(c, n) && Able(c, n, d, goal) && AtRest(n, d) && !Reached(n, goal)
    ensures n.ds[d].queue != [] && !n.completed
  {
    if goal.Completion? {
      hide Inv, AtRest, KnowsAll;
      QueueIsNotEmpty(c, n, d);
    } else {
      hide Inv, AtRest;
      KnownIsOfPlan(c, n, d, goal.i);
      NotYetCompleted(c, n, goal.i);
      ChunkIsQueued(c, n, d, goal.i);
    }
  }

  lemma HeldIsBusy(dl: Downloader, i: nat)
    requires TokensOf(dl) && forall t: nat | t < |dl.threads| :: Idle(dl.threads[t])
    ensures i !in dl.held
  {
  }

  lemma CountAtRest(c: Config, n: Node, d: nat)
    requires Inv(c, n) && AtRest(n, d) && !n.completed
    ensures n.ds[d].numCompleted < |c.plan|
  {
    var dl := n.ds[d];
    InvOf(c, n, d);
    FiniteBelow(dl.counted, |c.plan|);
    hide Inv, Shape, Tokens, Owners, Counts, TokensOf;
  }

  lemma NotCancelledAtRest(n: Node, d: nat)
    requires CancelledInside(n) && OthersIdle(n, d) && AtRest(n, d) && !n.completed
    ensures !n.cancelled
  {
  }

  lemma WorkerWaits(c: Config, n: Node, d: nat)
    requires Inv(c, n) && Live(n, d) && AtRest(n, d)
    ensures SomeWorkerIsReady(n.ds[d])
  {
    InvOf(c, n, d);
    ThreadFacts(c, n, d, 1);
    hide Inv, DownloaderFits, PcFits, Shape;
    assert n.ds[d].threads[1].Waiting?;
  }

  function Distance(pc: Pc): nat {
    match pc
    case CheckValid => 4
    case CheckCancel => 3
    case CheckReady => 2
    case Popping => 1
    case _ => 0
  }

  /** The dispatcher goes round its loop towards a non-empty queue. */
  lemma LoopTarget(c: Config, n: Node, d: nat, goal: Goal)
    requires Inv(c, n) && Able(c, n, d, goal) && OthersIdle(n, d) && AtRest(n, d) && CancelledInside(n) && !Reached(n, goal)
    ensures InLoop(PcOf(n, d, 0)) && n.ds[d].queue != []
    ensures var pc, to := PcOf(n, d, 0), Target(c, n, d, 0);
            if pc.Popping? then to == Popped(n.ds[d].queue[0]) else InLoop(to) && Distance(to) < Distance(pc)
  {
    ThreadFacts(c, n, d, 0);
    assert Live(n, d) && n.ds[d].valid;
    QueueHolds(c, n, d, goal);
    NotCancelledAtRest(n, d);
    WorkerWaits(c, n, d);
    assert Idle(PcOf(n, d, 0));
    hide Inv, OthersIdle, CancelledInside, SomeWorkerIsReady, AtRest, Able, Reached, PcFits;
  }

  /** What is left to do, the way round the dispatcher's loop included. */
  ghost function Fuel(c: Config, n: Node, d: nat): nat
    requires Thread(n, d, 0)
  {
    5 * Rest(c, n.ds[d]) + Distance(PcOf(n, d, 0))
  }

  lemma LoopFuel(c: Config, n: Node, m: Node, d: nat)
    requires Steps(n, d, 0) && InLoop(PcOf(n, d, 0)) && Worked(n, m, d, 0, Target(c, n, d, 0))
    requires var pc, to := PcOf(n, d, 0), Target(c, n, d, 0);
             if pc.Popping? then n.ds[d].queue != [] && to == Popped(n.ds[d].queue[0])
             else InLoop(to) && Distance(to) < Distance(pc)
    ensures Thread(m, d, 0) && Fuel(c, m, d) < Fuel(c, n, d)
  {
    var pc, to := PcOf(n, d, 0), Target(c, n, d, 0);
    hide StatusStep, Target, Steps, SomeWorkerIsReady;
    if pc.Popping? {
      StepLowersRest(c, n, m, d, 0);
      hide Rest;
    } else {
      LoadOfUpdate(c, n.ds[d].threads, 0, to, true);
      hide LoadOf;
    }
  }

  lemma LoopKeepsAlone(c: Config, n: Node, m: Node, d: nat)
    requires Inv(c, n) && Alone(c, n, d) && Thread(n, d, 0) && InLoop(PcOf(n, d, 0))
    requires exists to :: (InLoop(to) || to.Popped?) && Worked(n, m, d, 0, to)
    ensures Alone(c, m, d)
  {
    var to :| (InLoop(to) || to.Popped?) && Worked(n, m, d, 0, to);
    assert Promising(c, m, to);
    hide Inv, OthersIdle, Promising, QueueStep, StatusStep;
    OthersStillIdle(n, m, d);
    forall u: nat | u < |m.ds[d].threads| ensures Promising(c, m, m.ds[d].threads[u]) {
      if u != 0 { StillPromising(c, n, m, d, 0, u); }
    }
  }

  /** A state from which downloader `d` of node `a` can reach the goal alone. */
  ghost predicate CanReach(c: Config, s: Swarm, a: nat, d: nat, goal: Goal) {
    Good(c, s, a) && CancelledInside(s[a]) && Alone(c, s[a], d) && Able(c, s[a], d, goal)
  }

  lemma StaysAble(c: Config, n: Node, m: Node, d: nat, goal: Goal)
    requires Able(c, n, d, goal) && Stays(n, m)
    ensures Able(c, m, d, goal) && (CancelledInside(n) ==> CancelledInside(m))
  {
    hide CancelledInside;
  }

  lemma LoopIsGood(c: Config, sizes: seq<int>, s: Swarm, a: nat, d: nat, goal: Goal) returns (m: Move)
    requires Trusted(c, sizes) && CanReach(c, s, a, d, goal) && AtRest(s[a], d) && !Reached(s[a], goal)
    ensures CanMove(c, s, m) && Harmless(c, s, m, a, s[a]) && CanReach(c, After(c, s, m), a, d, goal)
    ensures NoNewTaint(c, s[a], After(c, s, m)[a]) && Fuel(c, After(c, s, m)[a], d) < Fuel(c, s[a], d)
  {
    var n := s[a];
    m := Move(a, Step(d, 0));
    assert Inv(c, n);
    assert Shape(c, n);
    hide SwarmInv, CanMove;
    LoopTarget(c, n, d, goal);
    assert Enabled(c, n, Step(d, 0)) by { hide Inv, Shape, Able, Target, OthersIdle, AtRest; }
    hide Inv, Shape, Enabled;
    OwnWorkIsAllowed(c, s, a, Step(d, 0));
    hide Alone, Able, Good, AtRest, CancelledInside, NoNewTaint;
    LoopStepIsGood(c, sizes, s, a, d, goal);
  }

  lemma LoopStepIsGood(c: Config, sizes: seq<int>, s: Swarm, a: nat, d: nat, goal: Goal)
    requires Trusted(c, sizes) && CanReach(c, s, a, d, goal) && CanMove(c, s, Move(a, Step(d, 0))) && InLoop(PcOf(s[a], d, 0))
    requires Inv(c, s[a]) && Enabled(c, s[a], Step(d, 0))
    requires var n := s[a];
             var pc, to := PcOf(n, d, 0), Target(c, n, d, 0);
             if pc.Popping? then n.ds[d].queue != [] && to == Popped(n.ds[d].queue[0])
             else InLoop(to) && Distance(to) < Distance(pc)
    ensures CanReach(c, After(c, s, Move(a, Step(d, 0))), a, d, goal)
    ensures NoNewTaint(c, s[a], After(c, s, Move(a, Step(d, 0)))[a])
    ensures Fuel(c, After(c, s, Move(a, Step(d, 0)))[a], d) < Fuel(c, s[a], d)
  {
    var n, to := s[a], Target(c, s[a], d, 0);
    var s' := After(c, s, Move(a, Step(d, 0)));
    assert !to.Closing? && !to.Exited? && !PcOf(n, d, 0).Cancelling? && Uncorrupted(c, to);
    hide SwarmInv, Inv, Trusted, CanMove, Enabled, Steps, Worked, Alone, Able, CancelledInside, Target, Fuel, Stays, Next,
      NoNewTaint, Uncorrupted;
    StepWorks(c, n, d, 0);
    MoveKeepsSwarmInv(c, sizes, s, Move(a, Step(d, 0)));
    WorkedStays(n, s'[a], d, 0, to);
    StaysAble(c, n, s'[a], d, goal);
    LoopKeepsAlone(c, n, s'[a], d);
    LoopFuel(c, n, s'[a], d);
    WorkedTaint(c, n, s'[a], d, 0, to);
  }

  lemma LessRestLessFuel(c: Config, n: Node, m: Node, d: nat)
    requires Thread(n, d, 0) && Thread(m, d, 0) && Rest(c, m.ds[d]) < Rest(c, n.ds[d])
    ensures Fuel(c, m, d) < Fuel(c, n, d)
  {
    hide Rest;
  }

  lemma WorkIsNearer(c: Config, sizes: seq<int>, s: Swarm, a: nat, d: nat, t: nat, goal: Goal) returns (m: Move)
    requires Trusted(c, sizes) && CanReach(c, s, a, d, goal) && Works(c, s[a], d, t)
    ensures CanMove(c, s, m) && Harmless(c, s, m, a, s[a]) && CanReach(c, After(c, s, m), a, d, goal)
    ensures NoNewTaint(c, s[a], After(c, s, m)[a]) && Fuel(c, After(c, s, m)[a], d) < Fuel(c, s[a], d)
  {
    var n := s[a];
    WorkIsEnabled(c, s, a, d, t);
    hide SwarmInv, Inv, Trusted, CanMove, Enabled, Works, Alone, CancelledInside, Fuel, Next, WorkOf, WorkTarget,
      PcHolds, PcFits, Harmless, NoNewTaint, KnowsAll, Load, Rest, QueueStep, StatusStep, Shape, Stays;
    m := WorkIsGood(c, sizes, s, a, d, t);
    var n' := After(c, s, m)[a];
    WorkKeepsAlone(c, n, n', d, t);
    WorkLowersRest(c, n, n', d, t);
    StaysAble(c, n, n', d, goal);
    LessRestLessFuel(c, n, n', d);
  }

  lemma HandOverIsNearer(c: Config, sizes: seq<int>, s: Swarm, a: nat, d: nat, t: nat, goal: Goal) returns (m: Move)
    requires Trusted(c, sizes) && CanReach(c, s, a, d, goal) && Thread(s[a], d, t) && t > 0
    requires PcOf(s[a], d, 0).Sending? && PcOf(s[a], d, t).Waiting?
    ensures CanMove(c, s, m) && Harmless(c, s, m, a, s[a]) && CanReach(c, After(c, s, m), a, d, goal)
    ensures NoNewTaint(c, s[a], After(c, s, m)[a]) && Fuel(c, After(c, s, m)[a], d) < Fuel(c, s[a], d)
  {
    var n := s[a];
    assert Inv(c, n);
    hide SwarmInv, Inv, Trusted, CanMove, Alone, CancelledInside, Fuel, Next, Harmless, KnowsAll, Load, Rest, DoHandOver,
      Stays, NoNewTaint;
    m := HandOverIsGood(c, sizes, s, a, d, t);
    HandOverKeepsAlone(c, n, d, t);
    HandOverLowersRest(c, n, d, t);
    StaysAble(c, n, DoHandOver(n, d, t), d, goal);
    LessRestLessFuel(c, n, DoHandOver(n, d, t), d);
  }

  lemma RestsOrWorks(c: Config, n: Node, d: nat) returns (t: nat)
    requires Inv(c, n) && d < |n.ds|
    ensures AtRest(n, d) ||
            (Thread(n, d, t) && (Works(c, n, d, t) || (PcOf(n, d, 0).Sending? && t > 0 && PcOf(n, d, t).Waiting?)))
  {
    hide Inv;
    t := 0;
    if LoadOf(c, n.ds[d].threads, false) == 0 {
      NoLoad(c, n.ds[d].threads, false);
    } else {
      t := FindWorkOf(c, n, d);
    }
  }

  lemma OneNearer(c: Config, sizes: seq<int>, s: Swarm, a: nat, d: nat, goal: Goal) returns (m: Move)
    requires Trusted(c, sizes) && CanReach(c, s, a, d, goal) && !Reached(s[a], goal)
    ensures CanMove(c, s, m) && Harmless(c, s, m, a, s[a]) && CanReach(c, After(c, s, m), a, d, goal)
    ensures NoNewTaint(c, s[a], After(c, s, m)[a]) && Fuel(c, After(c, s, m)[a], d) < Fuel(c, s[a], d)
  {
    assert Inv(c, s[a]) && d < |s[a].ds|;
    hide *;
    var t := RestsOrWorks(c, s[a], d);
    if AtRest(s[a], d) {
      m := LoopIsGood(c, sizes, s, a, d, goal);
    } else if Works(c, s[a], d, t) {
      m := WorkIsNearer(c, sizes, s, a, d, t, goal);
    } else {
      m := HandOverIsNearer(c, sizes, s, a, d, t, goal);
    }
  }

  /** Working alone, the downloader reaches its goal within `Fuel` moves, and nothing fails. */
  lemma {:induction false} Finish(c: Config, sizes: seq<int>, s: Swarm, a: nat, d: nat, goal: Goal)
    returns (states: seq<Swarm>, moves: seq<Move>)
    requires Trusted(c, sizes) && CanReach(c, s, a, d, goal)
    ensures Path(c, states, moves) && states[0] == s && FaultFree(c, states, moves, a, s[a]) && |moves| <= Fuel(c, s[a], d)
    ensures a < |Last(states)| && Reached(Last(states)[a], goal)
    decreases Fuel(c, s[a], d)
  {
    assert a < |s| && Thread(s[a], d, 0);
    hide Fuel, CanReach, CanMove, Harmless, Trusted, NoNewTaint, Reached;
    if Reached(s[a], goal) {
      states, moves := [s], [];
    } else {
      hide FaultFree;
      var m := OneNearer(c, sizes, s, a, d, goal);
      var rest, more := Finish(c, sizes, After(c, s, m), a, d, goal);
      Prepend(c, s, m, rest, more, a);
      states, moves := [s] + rest, [m] + more;
    }
  }

  // The bound --------------------------------------------------------------------------------

  /** The most work that one of the first `n` chunks is in a queue. */
  function LargestEntry(c: Config, n: nat): (r: nat)
    ensures forall i: nat | i < n :: QueueEntry(c, i) <= r
  {
    if n == 0 then 0
    else
      var r := LargestEntry(c, n - 1);
      if QueueEntry(c, n - 1) > r then QueueEntry(c, n - 1) else r
  }

  lemma {:induction false} QueueLoadBound(c: Config, queue: seq<nat>, k: nat)
    requires forall j | 0 <= j < |queue| :: QueueEntry(c, queue[j]) <= k
    ensures QueueLoad(c, queue) <= |queue| * k
  {
    hide QueueEntry;
    if queue != [] {
      QueueLoadBound(c, queue[..|queue| - 1], k);
    }
  }

  lemma QueueLength(c: Config, n: Node, d: nat)
    requires Inv(c, n) && d < |n.ds|
    ensures |n.ds[d].queue| <= |c.plan| && forall j | 0 <= j < |n.ds[d].queue| :: n.ds[d].queue[j] < |c.plan|
  {
    var dl := n.ds[d];
    InvOf(c, n, d);
    assert forall j | 0 <= j < |dl.queue| :: dl.queue[j] in dl.queue && dl.queue[j] in dl.known;
    hide Inv, Shape, Tokens, Owners, Counts;
    DistinctSize(dl.queue);
    FiniteBelow(Elements(dl.queue), |c.plan|);
  }

  lemma {:induction false} TimesMore(a: nat, b: nat, k: nat)
    requires a <= b
    ensures a * k <= b * k
  {
  }

  /** The work left once all goroutines are at rest depends on the plan only. */
  lemma FuelAtRest(c: Config, n: Node, d: nat)
    requires Inv(c, n) && Thread(n, d, 0) && LoadOf(c, n.ds[d].threads, false) == 0
    ensures Fuel(c, n, d) <= 5 * (|c.plan| * LargestEntry(c, |c.plan|)) + 4
  {
    var queue := n.ds[d].queue;
    NoLoad(c, n.ds[d].threads, false);
    NoLoad(c, n.ds[d].threads, true);
    QueueLength(c, n, d);
    hide Inv, QueueLoad, LoadOf, QueueEntry, Idle;
    var k := LargestEntry(c, |c.plan|);
    QueueLoadBound(c, queue, k);
    TimesMore(|queue|, |c.plan|, k);
  }

  lemma RestIsAlone(c: Config, n: Node, d: nat)
    requires d < |n.ds| && Load(c, n.ds) == 0
    ensures Alone(c, n, d)
  {
    forall e: nat, u: nat | Thread(n, e, u) ensures Idle(PcOf(n, e, u)) {
      NoLoads(c, n.ds, e);
      NoLoad(c, n.ds[e].threads, false);
    }
    hide LoadOf, Load, Addrs, SourceBytes;
    assert forall u: nat | u < |n.ds[d].threads| :: n.ds[d].threads[u] == PcOf(n, d, u);
  }

  /** One path after another. */
  lemma Join(c: Config, s1: seq<Swarm>, m1: seq<Move>, s2: seq<Swarm>, m2: seq<Move>)
    requires Path(c, s1, m1) && Path(c, s2, m2) && Last(s1) == s2[0]
    ensures Path(c, s1 + s2[1..], m1 + m2) && Last(s1 + s2[1..]) == Last(s2)
  {
    var states, moves := s1 + s2[1..], m1 + m2;
    hide Leads;
    forall k | 0 <= k < |moves| ensures Leads(c, states[k], moves[k], states[k + 1]) {
      if k >= |m1| {
        assert Leads(c, s2[k - |m1|], m2[k - |m1|], s2[k - |m1| + 1]);
        assert states[k] == s2[k - |m1|];
      }
    }
  }

  lemma JoinFaultFree(c: Config, s1: seq<Swarm>, m1: seq<Move>, s2: seq<Swarm>, m2: seq<Move>, a: nat, start: Node, later: Node)
    requires FaultFree(c, s1, m1, a, start) && FaultFree(c, s2, m2, a, later) && Last(s1) == s2[0]
    requires NoNewTaint(c, start, later)
    ensures FaultFree(c, s1 + s2[1..], m1 + m2, a, start)
  {
    var states, moves := s1 + s2[1..], m1 + m2;
    hide Harmless, NoNewTaint;
    forall k | 0 <= k < |moves| ensures Harmless(c, states[k], moves[k], a, start) {
      if k >= |m1| {
        assert states[k] == s2[k - |m1|];
        HarmlessSince(c, s2[k - |m1|], m2[k - |m1|], a, later, start);
      }
    }
  }

  /** No dead state. In whatever state a run has left a node, if a downloader is running, is valid, knows
      the chunks that its goal needs, and nobody has cancelled, then the goal can still be reached: by the
      node's own steps, in a number of steps that is bounded by the transfers under way and the plan.
      Nothing fails on the way, except that transfers which had already received wrong bytes fail their
      checksum test. */
  lemma GoalIsInReach(c: Config, sizes: seq<int>, run: seq<Swarm>, taken: seq<Move>, k: nat, a: nat, d: nat, goal: Goal)
    returns (states: seq<Swarm>, moves: seq<Move>)
    requires Trusted(c, sizes) && Run(c, run, taken) && k < |run| && a < |run[k]|
    requires Able(c, run[k][a], d, goal) && !run[k][a].cancelled
    ensures Path(c, states, moves) && states[0] == run[k]
    ensures FaultFree(c, states, moves, a, run[k][a])
    ensures a < |Last(states)| && Reached(Last(states)[a], goal)
    ensures |moves| <= Load(c, run[k][a].ds) + 5 * (|c.plan| * LargestEntry(c, |c.plan|)) + 4
  {
    RunHolds(c, sizes, run, taken, k);
    assert CancelledInside(run[k][a]);
    hide Run, SwarmInv, Trusted, Load, Alone, Fuel, FaultFree, Path, CancelledInside, LargestEntry, NoNewTaint, Stays, Able,
      Reached;
    var s1, m1 := Drain(c, sizes, run[k], a);
    var s := Last(s1);
    StaysAble(c, run[k][a], s[a], d, goal);
    AbleHasDispatcher(c, s[a], d, goal);
    RestIsAlone(c, s[a], d);
    var s2, m2 := Finish(c, sizes, s, a, d, goal);
    FuelBound(c, s, a, d);
    hide Good, CanReach;
    assert s1 != [] && s2 != [] by { assert Path(c, s1, m1) && Path(c, s2, m2); }
    Join(c, s1, m1, s2, m2);
    JoinFaultFree(c, s1, m1, s2, m2, a, run[k][a], s[a]);
    states, moves := s1 + s2[1..], m1 + m2;
  }

  /** A downloader that knows all chunks can complete the node. */
  lemma NoDeadState(c: Config, sizes: seq<int>, run: seq<Swarm>, taken: seq<Move>, k: nat, a: nat, d: nat)
    returns (states: seq<Swarm>, moves: seq<Move>)
    requires Trusted(c, sizes) && Run(c, run, taken) && k < |run| && a < |run[k]| && !run[k][a].cancelled
    requires Live(run[k][a], d) && run[k][a].ds[d].valid && KnowsAll(c, run[k][a], d)
    ensures Path(c, states, moves) && states[0] == run[k]
    ensures FaultFree(c, states, moves, a, run[k][a])
    ensures a < |Last(states)| && Last(states)[a].completed
    ensures |moves| <= Load(c, run[k][a].ds) + 5 * (|c.plan| * LargestEntry(c, |c.plan|)) + 4
  {
    assert Able(c, run[k][a], d, Completion);
    hide Able, Run, Trusted, Path, FaultFree, Load, LargestEntry;
    states, moves := GoalIsInReach(c, sizes, run, taken, k, a, d, Completion);
  }

  lemma AbleHasDispatcher(c: Config, n: Node, d: nat, goal: Goal)
    requires Able(c, n, d, goal)
    ensures Thread(n, d, 0)
  {
    hide KnowsAll;
  }

  lemma FuelBound(c: Config, s: Swarm, a: nat, d: nat)
    requires SwarmInv(c, s) && a < |s| && Thread(s[a], d, 0) && Load(c, s[a].ds) == 0
    ensures Fuel(c, s[a], d) <= 5 * (|c.plan| * LargestEntry(c, |c.plan|)) + 4
  {
    assert Inv(c, s[a]);
    hide SwarmInv, Inv, Fuel, LargestEntry;
    NoLoads(c, s[a].ds, d);
    FuelAtRest(c, s[a], d);
  }

  /** Starting the local downloader of a fresh node. */
  lemma SpawnIsAble(c: Config, s: Swarm, a: nat, queue: seq<nat>, workers: nat)
    requires Start(c, s) && a < |s| && !s[a].serveOnly && workers >= 1 && IsListOfAll(queue, |c.plan|)
    ensures var m := Move(a, Spawn(Kind.Local, queue, workers));
            CanMove(c, s, m) && Able(c, After(c, s, m)[a], 0, Completion) && !After(c, s, m)[a].cancelled
  {
    var n, m := s[a], DoSpawn(c, s[a], Kind.Local, queue, workers);
    assert Fresh(c, n);
    assert m.ds[0].threads[0] == FirstPc(c) && m.ds[0].known == Elements(queue);
    assert forall i: nat | i < |c.plan| :: i in queue;
    hide IsListOfAll;
  }

  lemma OneMoveRun(c: Config, s: Swarm, m: Move)
    requires Start(c, s) && CanMove(c, s, m)
    ensures Run(c, [s, After(c, s, m)], [m])
  {
    hide Start, CanMove, After;
  }

  /** The whole way: every fresh node with a source can reach completion, so the results about runs,
      and about completed nodes, are about runs and nodes that exist. */
  lemma FreshNodeCompletes(c: Config, sizes: seq<int>, s: Swarm, a: nat, queue: seq<nat>, workers: nat)
    returns (states: seq<Swarm>, moves: seq<Move>)
    requires Trusted(c, sizes) && Start(c, s) && a < |s| && !s[a].serveOnly
    requires workers >= 1 && IsListOfAll(queue, |c.plan|)
    ensures Run(c, states, moves) && states[0] == s && a < |Last(states)| && Last(states)[a].completed
  {
    var m := Move(a, Spawn(Kind.Local, queue, workers));
    SpawnIsAble(c, s, a, queue, workers);
    OneMoveRun(c, s, m);
    var s' := After(c, s, m);
    assert |s'| == |s|;
    hide Trusted, Start, CanMove, After, Able, IsListOfAll, LargestEntry, Load, FaultFree, Run, Leads;
    var rest, more := GoalIsInReach(c, sizes, [s, s'], [m], 1, a, 0, Completion);
    PrependPath(c, s, m, rest, more);
    states, moves := [s] + rest, [m] + more;
    PathIsRun(c, states, moves);
  }

  lemma PathIsRun(c: Config, states: seq<Swarm>, moves: seq<Move>)
    requires Path(c, states, moves) && Start(c, states[0])
    ensures Run(c, states, moves)
  {
    hide Start, Leads;
  }

  // Nodes without a source ----------------------------------------------------------------------

  /** A peer downloader is added, and its peer is polled. */
  lemma PollsAreAllowed(c: Config, s: Swarm, a: nat, b: nat, list: seq<nat>, workers: nat)
    requires SwarmInv(c, s) && a < |s| && b < |s| && a != b && !s[a].serveOnly && s[b].completed
    requires workers >= 1 && IsListOfAll(list, |c.plan|)
    ensures var spawn, poll := Move(a, Spawn(Peer(b), [], workers)), Move(a, Poll(|s[a].ds|, list));
            CanMove(c, s, spawn) && |After(c, s, spawn)| == |s| && CanMove(c, After(c, s, spawn), poll)
            && var n := After(c, After(c, s, spawn), poll)[a];
               |n.ds| > |s[a].ds| && Able(c, n, |s[a].ds|, Completion) && n.cancelled == s[a].cancelled
  {
    var n, d := s[a], |s[a].ds|;
    assert Inv(c, n);
    assert Shape(c, n);
    var m := DoSpawn(c, n, Peer(b), [], workers);
    hide SwarmInv, Inv;
    SpawnedShape(c, n, m, Peer(b), [], workers);
    hide Shape, IsListOfAll;
    assert NoDuplicates(list) && (forall i | i in list :: i < |c.plan|) && (forall i: nat | i < |c.plan| :: i in list) by {
      ListsAll(list, |c.plan|);
    }
    assert m.ds[d] == Downloader(Peer(b), m.ds[d].threads, [], {}, true, 0, map[], {}) && m.ds[d].threads[0] == FirstPc(c);
    hide NoDuplicates;
  }

  lemma ListsAll(list: seq<nat>, n: nat)
    requires IsListOfAll(list, n)
    ensures NoDuplicates(list) && (forall i | i in list :: i < n) && (forall i: nat | i < n :: i in list)
  {
  }

  lemma SpawnedShape(c: Config, n: Node, m: Node, kind: Kind, queue: seq<nat>, workers: nat)
    requires Shape(c, n) && workers >= 1 && m == DoSpawn(c, n, kind, queue, workers)
    requires forall i | i in queue :: i < |c.plan|
    ensures Shape(c, m)
  {
    var dl := m.ds[|n.ds|];
    assert dl.threads[0] == FirstPc(c) && forall t | 0 < t < |dl.threads| :: dl.threads[t] == Waiting;
    assert DownloaderFits(c, dl);
    hide DownloaderFits;
  }

  lemma RunSoFar(c: Config, run: seq<Swarm>, taken: seq<Move>, k: nat)
    requires Run(c, run, taken) && k < |run|
    ensures Run(c, run[..k + 1], taken[..k])
  {
    hide Start, Leads;
  }

  /** A node needs no source of its own: in whatever state a run has left it, uncancelled, and if some
      other node is completed, then a downloader for that peer can complete it. */
  lemma NewcomerCompletes(c: Config, sizes: seq<int>, run: seq<Swarm>, taken: seq<Move>, k: nat, a: nat, b: nat,
                          list: seq<nat>, workers: nat)
    returns (states: seq<Swarm>, moves: seq<Move>)
    requires Trusted(c, sizes) && Run(c, run, taken) && k < |run| && a < |run[k]| && b < |run[k]| && a != b
    requires run[k][b].completed && !run[k][a].serveOnly && !run[k][a].cancelled
    requires workers >= 1 && IsListOfAll(list, |c.plan|)
    ensures Path(c, states, moves) && states[0] == run[k] && a < |Last(states)| && Last(states)[a].completed
  {
    var s, d := run[k], |run[k][a].ds|;
    var spawn, poll := Move(a, Spawn(Peer(b), [], workers)), Move(a, Poll(d, list));
    RunHolds(c, sizes, run, taken, k);
    PollsAreAllowed(c, s, a, b, list, workers);
    var s1 := After(c, s, spawn);
    var s2 := After(c, s1, poll);
    assert |s2| == |s|;
    hide Run, SwarmInv, Trusted, CanMove, After, Able, IsListOfAll, LargestEntry, Load, FaultFree, Path;
    RunSoFar(c, run, taken, k);
    assert Last(run[..k + 1]) == s;
    var r1, t1 := run[..k + 1] + [s1], taken[..k] + [spawn];
    RunGoesOn(c, run[..k + 1], taken[..k], spawn);
    var r2, t2 := r1 + [s2], t1 + [poll];
    RunGoesOn(c, r1, t1, poll);
    assert r2[k + 2] == s2;
    var rest, more := GoalIsInReach(c, sizes, r2, t2, k + 2, a, d, Completion);
    PrependPath(c, s1, poll, rest, more);
    PrependPath(c, s, spawn, [s1] + rest, [poll] + more);
    states, moves := [s] + ([s1] + rest), [spawn] + ([poll] + more);
    assert rest != [] by { assert Path(c, rest, more); }
  }
}
