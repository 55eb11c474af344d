/** A downloader whose node is cancelled, or that is no longer valid, comes to its end
    (src/downloader.go:281-324). */
module Leaving {
  import opened Nodes
  import opened NodeInvariants
  import opened NodeSteps
  import opened Weights
  import opened Liveness
  import opened LiveCompletion
  import opened Turns

  ghost predicate IsLeaving(n: Node, d: nat) {
    d < |n.ds| && (n.cancelled || !n.ds[d].valid)
  }

  /** Dispatcher and workers have returned. */
  ghost predicate AllExited(n: Node, d: nat) {
    d < |n.ds| && forall t: nat | t < |n.ds[d].threads| :: n.ds[d].threads[t].Exited?
  }

  // The way out -----------------------------------------------------------------------------------

  /** The way out by one more entry of the queue. */
  function LastRound(c: Config): nat {
    4 * LargestEntry(c, |c.plan|) + 16
  }

  /** How far a goroutine of a leaving downloader is from its return. A dispatcher that has looked at the
      flags in time goes round once more, one that has not comes out at its next look. */
  function WayOut(c: Config, cancelled: bool, pc: Pc): nat {
    4 * Weight(c, pc, false) +
    match pc
    case Exited => 0
    case Closing => 1
    case Waiting => 1
    case CheckCancel => if cancelled then 2 else LastRound(c) + 2
    case CheckReady => LastRound(c) + 1
    case Popping => LastRound(c)
    case _ => 3
  }

  function WaysOut(c: Config, cancelled: bool, threads: seq<Pc>): nat {
    if threads == [] then 0
    else WaysOut(c, cancelled, threads[..|threads| - 1]) + WayOut(c, cancelled, threads[|threads| - 1])
  }

  /** How many steps the goroutines of downloader `d` still make at most. */
  ghost function StepsLeft(c: Config, n: Node, d: nat): nat
    requires d < |n.ds|
  {
    WaysOut(c, n.cancelled, n.ds[d].threads)
  }

  lemma {:induction false} WaysOutUpdate(c: Config, cancelled: bool, threads: seq<Pc>, t: nat, pc: Pc)
    requires t < |threads|
    ensures WaysOut(c, cancelled, threads[t := pc]) + WayOut(c, cancelled, threads[t])
         == WaysOut(c, cancelled, threads) + WayOut(c, cancelled, pc)
  {
    hide WayOut;
    var n := |threads| - 1;
    if t < n {
      WaysOutUpdate(c, cancelled, threads[..n], t, pc);
      assert threads[t := pc][..n] == threads[..n][t := pc];
    } else {
      assert threads[t := pc][..n] == threads[..n];
    }
  }

  lemma {:induction false} CancelShortens(c: Config, threads: seq<Pc>)
    ensures WaysOut(c, true, threads) <= WaysOut(c, false, threads)
  {
    hide Weight, LastRound;
    if threads != [] { CancelShortens(c, threads[..|threads| - 1]); }
  }

  lemma {:induction false} WaysOutBound(c: Config, cancelled: bool, threads: seq<Pc>)
    requires forall t | 0 <= t < |threads| :: PcFits(c, threads[t])
    ensures WaysOut(c, cancelled, threads) <= |threads| * (LastRound(c) + 2)
  {
    hide LastRound, WayOut, PcFits;
    if threads != [] {
      WaysOutBound(c, cancelled, threads[..|threads| - 1]);
      WayOutBound(c, cancelled, threads[|threads| - 1]);
    }
  }

  lemma WayOutBound(c: Config, cancelled: bool, pc: Pc)
    requires PcFits(c, pc)
    ensures WayOut(c, cancelled, pc) <= LastRound(c) + 2
  {
    if Token(pc).Some? { assert QueueEntry(c, Token(pc).value) <= LargestEntry(c, |c.plan|); }
    hide Bound, Addrs, LargestEntry;
  }

  /** However much there is to do, the number of steps left is bounded by the plan and the workers. */
  lemma StepsLeftBound(c: Config, n: Node, d: nat)
    requires Inv(c, n) && d < |n.ds|
    ensures StepsLeft(c, n, d) <= |n.ds[d].threads| * (LastRound(c) + 2)
  {
    assert DownloaderFits(c, n.ds[d]);
    hide Inv, PcFits, WaysOut, LastRound;
    WaysOutBound(c, n.cancelled, n.ds[d].threads);
  }

  // What a step does to it ------------------------------------------------------------------------

  lemma StepShortens(c: Config, n: Node, d: nat, t: nat)
    requires Steps(n, d, t) && IsLeaving(n, d)
    requires PcOf(n, d, t).Popping? && n.ds[d].queue != [] ==> n.ds[d].queue[0] < |c.plan|
    ensures WayOut(c, n.cancelled || PcOf(n, d, t).Cancelling?, Target(c, n, d, t)) < WayOut(c, n.cancelled, PcOf(n, d, t))
  {
    var dl := n.ds[d];
    if PcOf(n, d, t).Popping? && dl.queue != [] {
      assert QueueEntry(c, dl.queue[0]) <= LargestEntry(c, |c.plan|);
    }
    hide Cost, LargestEntry, SomeWorkerIsReady, AllWorkersExited;
  }

  lemma TransferShortens(c: Config, n: Node, a: Action)
    requires OfTransfer(a) && Enabled(c, n, a) && PcFits(c, PcOf(n, a.d, a.t))
    ensures WayOut(c, n.cancelled, TransferTarget(c, n, a)) < WayOut(c, n.cancelled, PcOf(n, a.d, a.t))
  {
    var pc := PcOf(n, a.d, a.t);
    if pc.Writing? && pc.k < |c.plan[pc.i]| { BoundWithin(c, pc.i, pc.k + 1); }
    hide Bound, Addrs, LastRound;
  }

  /** Goroutine (d, t) has gone on to `to`. */
  lemma OneShorter(c: Config, n: Node, m: Node, d: nat, t: nat, to: Pc)
    requires Thread(n, d, t) && d < |m.ds| && m.ds[d].threads == n.ds[d].threads[t := to] && (n.cancelled ==> m.cancelled)
    requires WayOut(c, m.cancelled, to) < WayOut(c, m.cancelled, PcOf(n, d, t))
    ensures StepsLeft(c, m, d) < StepsLeft(c, n, d)
  {
    hide WayOut, WaysOut;
    WaysOutUpdate(c, m.cancelled, n.ds[d].threads, t, to);
    if n.cancelled != m.cancelled { CancelShortens(c, n.ds[d].threads); }
  }

  lemma NoneLonger(c: Config, n: Node, m: Node, d: nat)
    requires d < |n.ds| && d < |m.ds| && m.ds[d].threads == n.ds[d].threads && (n.cancelled ==> m.cancelled)
    ensures StepsLeft(c, m, d) <= StepsLeft(c, n, d)
  {
    hide WaysOut;
    if n.cancelled != m.cancelled { CancelShortens(c, n.ds[d].threads); }
  }

  /** The downloader goes on leaving, and `less` says whether one of its goroutines has moved. */
  ghost predicate Nearer(c: Config, n: Node, m: Node, d: nat, less: bool) {
    && IsLeaving(n, d) && IsLeaving(m, d) && |m.ds| >= |n.ds| && |m.ds[d].threads| == |n.ds[d].threads|
    && StepsLeft(c, m, d) <= StepsLeft(c, n, d)
    && (less ==> StepsLeft(c, m, d) < StepsLeft(c, n, d))
  }

  lemma MovedIsNearer(c: Config, n: Node, m: Node, e: nat, t: nat, to: Pc, d: nat)
    requires IsLeaving(n, d) && Thread(n, e, t) && |m.ds| == |n.ds| && m.ds == n.ds[e := m.ds[e]]
    requires m.ds[e].threads == n.ds[e].threads[t := to] && m.ds[e].valid == n.ds[e].valid && (n.cancelled ==> m.cancelled)
    requires e == d ==> WayOut(c, m.cancelled, to) < WayOut(c, m.cancelled, PcOf(n, e, t))
    ensures Nearer(c, n, m, d, e == d)
  {
    hide WayOut, StepsLeft;
    if e == d { OneShorter(c, n, m, d, t, to); } else { NoneLonger(c, n, m, d); }
  }

  lemma SameWayOut(c: Config, pc: Pc, cancelled: bool, later: bool)
    requires !pc.CheckCancel?
    ensures WayOut(c, cancelled, pc) == WayOut(c, later, pc)
  {
  }

  lemma StepIsNearer(c: Config, n: Node, e: nat, t: nat, d: nat)
    requires Inv(c, n) && Enabled(c, n, Step(e, t)) && IsLeaving(n, d)
    ensures Nearer(c, n, Next(c, n, Step(e, t)), d, e == d)
  {
    var m, pc, to := Next(c, n, Step(e, t)), PcOf(n, e, t), Target(c, n, e, t);
    StepWorks(c, n, e, t);
    if e == d {
      QueueLength(c, n, d);
      hide Inv, Enabled, Next, Target, WayOut, Nearer, QueueStep, StatusStep, Steps, Goes, IsLeaving;
      StepShortens(c, n, d, t);
      if m.cancelled != n.cancelled { SameWayOut(c, pc, m.cancelled, n.cancelled); }
    }
    hide Inv, Enabled, Next, Target, WayOut, Nearer, QueueStep, StatusStep, Steps, Goes, IsLeaving;
    MovedIsNearer(c, n, m, e, t, to, d);
  }

  lemma TransferIsNearer(c: Config, n: Node, a: Action, d: nat)
    requires Inv(c, n) && OfTransfer(a) && Enabled(c, n, a) && IsLeaving(n, d)
    ensures Nearer(c, n, Next(c, n, a), d, a.d == d)
  {
    assert Shape(c, n) && Thread(n, a.d, a.t);
    ThreadFacts(c, n, a.d, a.t);
    hide Inv, Shape, Enabled, Next, TransferTarget, WayOut, Nearer, PcFits, IsLeaving;
    TransferMoves(c, n, a);
    TransferShortens(c, n, a);
    MovedIsNearer(c, n, Next(c, n, a), a.d, a.t, TransferTarget(c, n, a), d);
  }

  lemma HandOverShortens(c: Config, n: Node, d: nat, t: nat)
    requires Thread(n, d, 0) && Thread(n, d, t) && t > 0 && PcOf(n, d, 0).Sending? && PcOf(n, d, t).Waiting?
    ensures d < |DoHandOver(n, d, t).ds| && StepsLeft(c, DoHandOver(n, d, t), d) < StepsLeft(c, n, d)
  {
    HandOverThreads(n, d, t);
    WaysOutUpdate(c, n.cancelled, n.ds[d].threads, 0, CheckValid);
    WaysOutUpdate(c, n.cancelled, n.ds[d].threads[0 := CheckValid], t, Received(PcOf(n, d, 0).i));
    hide WaysOut, DoHandOver, Cost, LastRound;
  }

  lemma SendIsNearer(c: Config, n: Node, e: nat, t: nat, d: nat)
    requires Shape(c, n) && Enabled(c, n, HandOver(e, t)) && IsLeaving(n, d)
    ensures Nearer(c, n, Next(c, n, HandOver(e, t)), d, e == d)
  {
    hide Shape;
    var m := Next(c, n, HandOver(e, t));
    HandOverThreads(n, e, t);
    assert m == DoHandOver(n, e, t);
    hide DoHandOver, StepsLeft, Next;
    if e == d { HandOverShortens(c, n, d, t); } else { NoneLonger(c, n, m, d); }
  }

  lemma FromOutsideIsNearer(c: Config, n: Node, a: Action, d: nat)
    requires Shape(c, n) && Enabled(c, n, a) && IsLeaving(n, d)
    requires a.Spawn? || a.Invalidate? || a.Cancel? || a.Poll? || a.FillCache?
    ensures Nearer(c, n, Next(c, n, a), d, false)
  {
    hide Shape;
    NoneLonger(c, n, Next(c, n, a), d);
    hide StepsLeft;
  }

  /** Every step of one of its goroutines, failing or not, brings a leaving downloader nearer to its end,
      and no other step takes it away from there. */
  lemma NextIsNearer(c: Config, n: Node, a: Action, d: nat)
    requires Inv(c, n) && Enabled(c, n, a) && IsLeaving(n, d)
    ensures Nearer(c, n, Next(c, n, a), d, OfDownloader(a, d))
  {
    assert Shape(c, n);
    hide Inv, Shape, Enabled, Next, IsLeaving, Nearer;
    match a {
      case Step(e, t) => StepIsNearer(c, n, e, t, d);
      case HandOver(e, t) => SendIsNearer(c, n, e, t, d);
      case _ => if OfTransfer(a) { TransferIsNearer(c, n, a, d); } else { FromOutsideIsNearer(c, n, a, d); }
    }
  }

  // Who can go on ---------------------------------------------------------------------------------

  /** Goroutine `t` can act, and will be able to until it does: it does not wait for a chunk that the
      dispatcher may give to another worker. */
  ghost predicate Ready(n: Node, d: nat, t: nat) {
    CanAct(n, d, t) && (PcOf(n, d, t).Waiting? ==> !PcOf(n, d, 0).Sending?)
  }

  lemma IdleIsReady(c: Config, n: Node, d: nat) returns (t: nat)
    requires Inv(c, n) && AtRest(n, d) && !AllExited(n, d)
    ensures Ready(n, d, t)
  {
    var dl := n.ds[d];
    assert DownloaderFits(c, dl);
    hide Inv, PcFits;
    t := 0;
    if dl.threads[0].Closing? && !AllWorkersExited(dl) { t :| 0 < t < |dl.threads| && !dl.threads[t].Exited?; }
  }

  /** As long as they have not all returned, some goroutine is ready. */
  lemma SomebodyIsReady(c: Config, n: Node, d: nat) returns (t: nat)
    requires Inv(c, n) && d < |n.ds| && !AllExited(n, d)
    ensures Ready(n, d, t)
  {
    t := RestsOrWorks(c, n, d);
    if AtRest(n, d) {
      hide *;
      t := IdleIsReady(c, n, d);
    } else if !Works(c, n, d, t) {
      hide Inv, AtRest, AllExited;
      assert SomeWorkerWaits(n, d);
      t := 0;
    }
    hide Inv, AtRest, AllExited, SomeWorkerWaits;
  }

  lemma MovedKeepsExited(n: Node, m: Node, e: nat, t: nat, d: nat)
    requires AllExited(n, d) && Thread(n, e, t) && !PcOf(n, e, t).Exited?
    requires |m.ds| == |n.ds| && m.ds == n.ds[e := m.ds[e]]
    ensures AllExited(m, d)
  {
  }

  lemma StepKeepsExited(c: Config, n: Node, e: nat, t: nat, d: nat)
    requires Inv(c, n) && Enabled(c, n, Step(e, t)) && AllExited(n, d)
    ensures AllExited(Next(c, n, Step(e, t)), d)
  {
    StepWorks(c, n, e, t);
    assert Thread(n, e, t) && !PcOf(n, e, t).Exited?;
    hide Inv, Enabled, Next, Target, QueueStep, StatusStep, Goes, AllExited;
    MovedKeepsExited(n, Next(c, n, Step(e, t)), e, t, d);
  }

  lemma TransferKeepsExited(c: Config, n: Node, a: Action, d: nat)
    requires Shape(c, n) && Enabled(c, n, a) && OfTransfer(a) && AllExited(n, d)
    ensures AllExited(Next(c, n, a), d)
  {
    assert Thread(n, a.d, a.t) && !PcOf(n, a.d, a.t).Exited?;
    hide Shape, Enabled, Next, TransferTarget, AllExited;
    TransferMoves(c, n, a);
    MovedKeepsExited(n, Next(c, n, a), a.d, a.t, d);
  }

  lemma OtherKeepsExited(c: Config, n: Node, a: Action, d: nat)
    requires Shape(c, n) && Enabled(c, n, a) && !a.Step? && !OfTransfer(a) && AllExited(n, d)
    ensures AllExited(Next(c, n, a), d)
  {
    hide Shape;
  }

  /** Who has returned does not come back. */
  lemma NextKeepsExited(c: Config, n: Node, a: Action, d: nat)
    requires Inv(c, n) && Enabled(c, n, a) && AllExited(n, d)
    ensures AllExited(Next(c, n, a), d)
  {
    assert Shape(c, n);
    hide Inv, Shape, Enabled, Next, AllExited;
    if a.Step? {
      StepKeepsExited(c, n, a.d, a.t, d);
    } else if OfTransfer(a) {
      TransferKeepsExited(c, n, a, d);
    } else {
      OtherKeepsExited(c, n, a, d);
    }
  }

  /** What can keep goroutine (e, u) from moving, for all that goroutine (d, t) is concerned. */
  lemma MovedLeavesReady(n: Node, m: Node, d: nat, t: nat, e: nat, u: nat, to: Pc)
    requires Ready(n, d, t) && Thread(n, e, u) && (e, u) != (d, t) && |m.ds| == |n.ds| && m.ds == n.ds[e := m.ds[e]]
    requires m.ds[e].threads == n.ds[e].threads[u := to]
    requires PcOf(n, d, t).Sending? || PcOf(n, d, t).Closing? ==> t == 0
    requires e == d ==> !PcOf(n, d, u).Exited? && (PcOf(n, d, u).Waiting? ==> !PcOf(n, d, 0).Sending?)
    requires e == d && u == 0 && (PcOf(n, d, 0).Closing? || PcOf(n, d, 0).Exited?) ==> to.Exited?
    ensures Ready(m, d, t)
  {
    if PcOf(n, d, t).Sending? {
      var w: nat :| Thread(n, d, w) && w > 0 && PcOf(n, d, w).Waiting?;
      assert Thread(m, d, w) && PcOf(m, d, w).Waiting?;
    }
  }

  lemma StepLeavesReady(c: Config, n: Node, e: nat, u: nat, d: nat, t: nat)
    requires Inv(c, n) && Enabled(c, n, Step(e, u)) && Ready(n, d, t) && (e, u) != (d, t)
    ensures Ready(Next(c, n, Step(e, u)), d, t)
  {
    StepWorks(c, n, e, u);
    ThreadFacts(c, n, d, t);
    ThreadFacts(c, n, e, u);
    var to := Target(c, n, e, u);
    assert e == d ==> !PcOf(n, d, u).Exited? && (PcOf(n, d, u).Waiting? ==> !PcOf(n, d, 0).Sending?);
    assert PcOf(n, e, u).Closing? ==> to.Exited?;
    hide Inv, Enabled, Next, Target, QueueStep, StatusStep, Goes, Steps, PcFits, Ready, AllWorkersExited;
    MovedLeavesReady(n, Next(c, n, Step(e, u)), d, t, e, u, to);
  }

  lemma TransferLeavesReady(c: Config, n: Node, a: Action, d: nat, t: nat)
    requires Inv(c, n) && OfTransfer(a) && Enabled(c, n, a) && Ready(n, d, t) && (a.d, a.t) != (d, t)
    ensures Ready(Next(c, n, a), d, t)
  {
    assert Shape(c, n) && Thread(n, a.d, a.t) && (PcOf(n, a.d, a.t).Requesting? || PcOf(n, a.d, a.t).Writing?);
    ThreadFacts(c, n, d, t);
    hide Inv, Shape, Enabled, Next, TransferTarget, PcFits, Ready;
    TransferMoves(c, n, a);
    MovedLeavesReady(n, Next(c, n, a), d, t, a.d, a.t, TransferTarget(c, n, a));
  }

  lemma SameThreadsReady(n: Node, m: Node, d: nat, t: nat)
    requires Ready(n, d, t) && d < |m.ds| && m.ds[d].threads == n.ds[d].threads
    ensures Ready(m, d, t)
  {
    if PcOf(n, d, t).Sending? {
      var w: nat :| Thread(n, d, w) && w > 0 && PcOf(n, d, w).Waiting?;
      assert Thread(m, d, w) && PcOf(m, d, w).Waiting?;
    }
  }

  lemma HandOverLeavesReady(c: Config, n: Node, e: nat, u: nat, d: nat, t: nat)
    requires Inv(c, n) && Enabled(c, n, HandOver(e, u)) && Ready(n, d, t) && !ActsFor(HandOver(e, u), d, t)
    ensures Ready(Next(c, n, HandOver(e, u)), d, t)
  {
    ThreadFacts(c, n, d, t);
    HandOverThreads(n, e, u);
    var m := DoHandOver(n, e, u);
    hide Inv, PcFits, DoHandOver, AllWorkersExited, SomeWorkerWaits;
    if e == d {
      assert PcOf(m, d, t) == PcOf(n, d, t);
    } else {
      hide Ready;
      SameThreadsReady(n, m, d, t);
    }
  }

  lemma OtherLeavesReady(c: Config, n: Node, a: Action, d: nat, t: nat)
    requires Shape(c, n) && Enabled(c, n, a) && !a.Step? && !a.HandOver? && !OfTransfer(a) && Ready(n, d, t)
    ensures Ready(Next(c, n, a), d, t)
  {
    hide Shape;
    var m := Next(c, n, a);
    assert d < |m.ds| && m.ds[d].threads == n.ds[d].threads;
    hide Next, Ready;
    SameThreadsReady(n, m, d, t);
  }

  /** Until it acts, a ready goroutine stays ready. */
  lemma NextLeavesReady(c: Config, n: Node, a: Action, d: nat, t: nat)
    requires Inv(c, n) && Enabled(c, n, a) && Ready(n, d, t) && !ActsFor(a, d, t)
    ensures Ready(Next(c, n, a), d, t)
  {
    assert Shape(c, n);
    hide Inv, Shape, Enabled, Next, Ready;
    match a {
      case Step(e, u) => StepLeavesReady(c, n, e, u, d, t);
      case HandOver(e, u) => HandOverLeavesReady(c, n, e, u, d, t);
      case _ => if OfTransfer(a) { TransferLeavesReady(c, n, a, d, t); } else { OtherLeavesReady(c, n, a, d, t); }
    }
  }
}
