/** The turns of goroutines: when one can act, and what a fair scheduler grants it. */
module Turns {
  import opened Nodes
  import opened NodeInvariants
  import opened NodeSteps
  import opened Swarms
  import opened SwarmSafety
  import opened Liveness

  /** The step is one of a goroutine of downloader `d`. */
  predicate OfDownloader(a: Action, d: nat) {
    (a.Step? || a.HandOver? || OfTransfer(a)) && a.d == d
  }

  /** Goroutine `t` of downloader `d` takes part in the step. */
  predicate ActsFor(a: Action, d: nat, t: nat) {
    OfDownloader(a, d) && (a.t == t || (a.HandOver? && t == 0))
  }

  ghost predicate SomeWorkerWaits(n: Node, d: nat) {
    exists u: nat :: Thread(n, d, u) && u > 0 && PcOf(n, d, u).Waiting?
  }

  /** Goroutine `t` of the node's downloader is not blocked: only a send without a receiver, a receive
      without a sender, and the wait for the workers can block. */
  ghost predicate CanAct(n: Node, d: nat, t: nat) {
    Thread(n, d, t) &&
    match PcOf(n, d, t)
    case Sending(_) => SomeWorkerWaits(n, d)
    case Waiting => Thread(n, d, 0) && (PcOf(n, d, 0).Sending? || PcOf(n, d, 0).Closing? || PcOf(n, d, 0).Exited?)
    case Closing => AllWorkersExited(n.ds[d])
    case Exited => false
    case _ => true
  }

  /** `CanAct` is no more and no less than the machine's rules: some step of the goroutine is possible in
      the swarm, whatever the other nodes do. */
  lemma CanActIff(c: Config, s: Swarm, a: nat, d: nat, t: nat)
    requires SwarmInv(c, s) && a < |s| && Thread(s[a], d, t)
    ensures CanAct(s[a], d, t) <==> exists act :: CanMove(c, s, Move(a, act)) && ActsFor(act, d, t)
  {
    assert Inv(c, s[a]);
    assert Shape(c, s[a]);
    hide SwarmInv, CanMove, CanAct;
    if CanAct(s[a], d, t) {
      var act := TurnOf(c, s, a, d, t);
    }
    if act :| CanMove(c, s, Move(a, act)) && ActsFor(act, d, t) {
      ActingCan(c, s[a], act, d, t) by { assert Enabled(c, s[a], act) by { EnabledIfAllowed(c, s, a, act); } }
    }
  }

  lemma EnabledIfAllowed(c: Config, s: Swarm, a: nat, act: Action)
    requires a < |s| && CanMove(c, s, Move(a, act))
    ensures Enabled(c, s[a], act)
  {
    hide Enabled, Allowed, Shape;
  }

  lemma ActingCan(c: Config, n: Node, act: Action, d: nat, t: nat)
    requires Thread(n, d, t) && Enabled(c, n, act) && ActsFor(act, d, t)
    ensures CanAct(n, d, t)
  {
    hide Bound, AllWorkersExited;
  }

  lemma WorkActs(c: Config, n: Node, d: nat, t: nat)
    requires Works(c, n, d, t) && PcFits(c, PcOf(n, d, t))
    ensures ActsFor(WorkOf(c, n, d, t), d, t)
  {
    hide Bound, Missing, Expected;
  }

  lemma StepTurn(c: Config, n: Node, d: nat, t: nat)
    requires CanAct(n, d, t) && !Works(c, n, d, t) && !PcOf(n, d, t).Sending?
    requires PcOf(n, d, t).Waiting? ==> !PcOf(n, d, 0).Sending?
    ensures Enabled(c, n, Step(d, t))
  {
    hide AllWorkersExited;
  }

  lemma WaitingIsWorker(c: Config, n: Node, d: nat, t: nat)
    requires Inv(c, n) && Thread(n, d, t)
    ensures Thread(n, d, 0) && PcFits(c, PcOf(n, d, t)) && (PcOf(n, d, t).Waiting? ==> t > 0)
  {
    hide Inv, PcFits;
    ThreadFacts(c, n, d, t);
  }

  lemma TurnOf(c: Config, s: Swarm, a: nat, d: nat, t: nat) returns (act: Action)
    requires SwarmInv(c, s) && a < |s| && Inv(c, s[a]) && Shape(c, s[a]) && CanAct(s[a], d, t)
    ensures CanMove(c, s, Move(a, act)) && ActsFor(act, d, t)
  {
    var n := s[a];
    assert PcOf(n, d, t).Sending? ==> SomeWorkerWaits(n, d);
    hide SwarmInv, Inv, Shape, CanMove, CanAct, Works, PcFits, Enabled, PcOf;
    WaitingIsWorker(c, n, d, t);
    if Works(c, n, d, t) {
      act := WorkOf(c, n, d, t);
      WorkIsAllowed(c, s, a, d, t);
      WorkActs(c, n, d, t);
    } else if PcOf(n, d, t).Sending? || (PcOf(n, d, t).Waiting? && PcOf(n, d, 0).Sending?) {
      act := SendTurn(c, s, a, d, t);
    } else {
      act := Step(d, t);
      StepTurn(c, n, d, t);
      OwnWorkIsAllowed(c, s, a, act);
    }
  }

  lemma SendTurn(c: Config, s: Swarm, a: nat, d: nat, t: nat) returns (act: Action)
    requires a < |s| && Inv(c, s[a]) && Shape(c, s[a]) && Thread(s[a], d, 0) && Thread(s[a], d, t)
    requires (PcOf(s[a], d, t).Sending? && SomeWorkerWaits(s[a], d)) ||
             (t > 0 && PcOf(s[a], d, t).Waiting? && PcOf(s[a], d, 0).Sending?)
    ensures CanMove(c, s, Move(a, act)) && ActsFor(act, d, t)
  {
    var n := s[a];
    ThreadFacts(c, n, d, t);
    hide Inv, Shape, CanMove, PcFits;
    var u: nat := t;
    if PcOf(n, d, t).Sending? { u :| Thread(n, d, u) && u > 0 && PcOf(n, d, u).Waiting?; }
    act := HandOver(d, u);
    HandOverIsAllowed(c, s, a, d, u);
  }

  lemma TransferWorked(c: Config, n: Node, a: Action)
    requires Shape(c, n) && OfTransfer(a) && Enabled(c, n, a)
    ensures Thread(n, a.d, a.t) && Worked(n, Next(c, n, a), a.d, a.t, TransferTarget(c, n, a))
    ensures PcOf(n, a.d, a.t).Requesting? || PcOf(n, a.d, a.t).Writing?
    ensures InTransfer(TransferTarget(c, n, a))
  {
    TransferMoves(c, n, a);
    hide Shape, Next, Bound, Verdict;
  }

  // Over a run ------------------------------------------------------------------------------------

  ghost predicate CanActAt(run: seq<Swarm>, x: nat, a: nat, d: nat, t: nat) {
    x < |run| && a < |run[x]| && CanAct(run[x][a], d, t)
  }

  ghost predicate ActsAt(taken: seq<Move>, x: nat, a: nat, d: nat, t: nat) {
    x < |taken| && taken[x].who == a && ActsFor(taken[x].a, d, t)
  }

  ghost predicate GetsATurn(run: seq<Swarm>, taken: seq<Move>, a: nat, d: nat, t: nat, x: nat, window: nat) {
    exists y: nat :: x <= y < x + window && (ActsAt(taken, y, a, d, t) || !CanActAt(run, y, a, d, t))
  }

  /** Weak fairness: no goroutine of downloader `d` of node `a` is able to act during `window` moves in a
      row without acting. */
  ghost predicate Fair(run: seq<Swarm>, taken: seq<Move>, a: nat, d: nat, j: nat, k: nat, window: nat) {
    forall x: nat, t: nat | j <= x && x + window <= k :: GetsATurn(run, taken, a, d, t, x, window)
  }
}
