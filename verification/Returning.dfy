/** Downloaders that are told to stop return: from every state they can, in every fair run they do, and
    they take at most one more chunk from their queue (src/downloader.go:281-324). */
module Returning {
  import opened Nodes
  import opened NodeInvariants
  import opened NodeSteps
  import opened Swarms
  import opened SwarmSafety
  import opened Liveness
  import opened LiveCompletion
  import opened Turns
  import opened Leaving

  // Every leaving downloader can return -----------------------------------------------------------

  /** Nothing that a leaving downloader of the node has behind it is undone. */
  ghost predicate Onward(c: Config, n: Node, m: Node) {
    && |m.ds| == |n.ds| && (n.cancelled ==> m.cancelled)
    && (forall e: nat | IsLeaving(n, e) :: Nearer(c, n, m, e, false))
    && (forall e: nat | AllExited(n, e) :: AllExited(m, e))
  }

  lemma StillOnward(c: Config, n: Node, m: Node, o: Node)
    requires Onward(c, n, m) && Onward(c, m, o)
    ensures Onward(c, n, o)
  {
    hide IsLeaving, AllExited, StepsLeft;
    forall e: nat | IsLeaving(n, e) ensures Nearer(c, n, o, e, false) {
      assert Nearer(c, n, m, e, false);
      assert Nearer(c, m, o, e, false);
    }
  }

  lemma NextKeepsCancelled(c: Config, n: Node, a: Action)
    requires Inv(c, n) && Enabled(c, n, a) && n.cancelled
    ensures Next(c, n, a).cancelled
  {
    assert Shape(c, n);
    if a.Step? {
      StepWorks(c, n, a.d, a.t);
      hide Next, Inv;
    } else if OfTransfer(a) {
      TransferMoves(c, n, a);
      hide Next, Inv;
    } else {
      hide Inv, Enabled;
    }
  }

  lemma NextIsOnward(c: Config, n: Node, a: Action)
    requires Inv(c, n) && Enabled(c, n, a) && !a.Spawn?
    ensures Onward(c, n, Next(c, n, a))
  {
    assert Shape(c, n);
    hide Inv, Shape, Enabled, Next, IsLeaving, AllExited, StepsLeft, Nearer;
    NextKnown(c, n, a);
    if n.cancelled { NextKeepsCancelled(c, n, a); }
    forall e: nat | IsLeaving(n, e) ensures Nearer(c, n, Next(c, n, a), e, false) { NextIsNearer(c, n, a, e); }
    forall e: nat | AllExited(n, e) ensures AllExited(Next(c, n, a), e) { NextKeepsExited(c, n, a, e); }
  }

  lemma OneStepOut(c: Config, sizes: seq<int>, s: Swarm, a: nat, d: nat) returns (m: Move)
    requires Trusted(c, sizes) && Good(c, s, a) && IsLeaving(s[a], d) && !AllExited(s[a], d)
    ensures CanMove(c, s, m) && m.who == a && OfDownloader(m.a, d) && Good(c, After(c, s, m), a)
    ensures Onward(c, s[a], After(c, s, m)[a]) && Nearer(c, s[a], After(c, s, m)[a], d, true)
  {
    var n := s[a];
    assert Inv(c, n) && d < |n.ds|;
    assert Shape(c, n);
    hide SwarmInv, Inv, Shape, CanAct, IsLeaving, AllExited, Onward, Nearer, Enabled, Next, Allowed, Trusted;
    var t := SomebodyIsReady(c, n, d);
    var act := TurnOf(c, s, a, d, t);
    m := Move(a, act);
    MoveKeepsSwarmInv(c, sizes, s, m);
    NextIsOnward(c, n, act);
    NextIsNearer(c, n, act, d);
  }

  lemma NothingIsOnward(c: Config, n: Node)
    ensures Onward(c, n, n)
  {
    hide AllExited, StepsLeft;
  }

  ghost predicate OwnMoves(moves: seq<Move>, a: nat, d: nat) {
    forall k | 0 <= k < |moves| :: moves[k].who == a && OfDownloader(moves[k].a, d)
  }

  /** From every state a leaving downloader returns by at most `StepsLeft` steps of its own. */
  lemma {:induction false} Leave(c: Config, sizes: seq<int>, s: Swarm, a: nat, d: nat)
    returns (states: seq<Swarm>, moves: seq<Move>)
    requires Trusted(c, sizes) && Good(c, s, a) && IsLeaving(s[a], d)
    ensures Path(c, states, moves) && states != [] && states[0] == s
    ensures |moves| <= StepsLeft(c, s[a], d) && OwnMoves(moves, a, d)
    ensures a < |Last(states)| && Good(c, Last(states), a) && Onward(c, s[a], Last(states)[a]) && AllExited(Last(states)[a], d)
    decreases StepsLeft(c, s[a], d)
  {
    assert a < |s|;
    hide *;
    if AllExited(s[a], d) {
      states, moves := [s], [];
      NothingIsOnward(c, s[a]);
      EmptyPath(c, s, a, d);
    } else {
      var m := OneStepOut(c, sizes, s, a, d);
      LeftFewer(c, s[a], After(c, s, m)[a], d);
      var rest, more := Leave(c, sizes, After(c, s, m), a, d);
      PrependOwn(c, s, m, rest, more, a, d);
      states, moves := [s] + rest, [m] + more;
      StillOnward(c, s[a], After(c, s, m)[a], Last(rest)[a]);
    }
  }

  lemma LeftFewer(c: Config, n: Node, m: Node, d: nat)
    requires Nearer(c, n, m, d, true)
    ensures IsLeaving(n, d) && IsLeaving(m, d) && d < |n.ds| && d < |m.ds| && StepsLeft(c, m, d) < StepsLeft(c, n, d)
  {
    hide StepsLeft;
  }

  lemma EmptyPath(c: Config, s: Swarm, a: nat, d: nat)
    ensures Path(c, [s], []) && OwnMoves([], a, d) && Last([s]) == s
  {
  }

  lemma PrependOwn(c: Config, s: Swarm, m: Move, states: seq<Swarm>, moves: seq<Move>, a: nat, d: nat)
    requires CanMove(c, s, m) && Path(c, states, moves) && states[0] == After(c, s, m)
    requires m.who == a && OfDownloader(m.a, d) && OwnMoves(moves, a, d)
    ensures Path(c, [s] + states, [m] + moves) && OwnMoves([m] + moves, a, d)
    ensures ([s] + states)[0] == s && Last([s] + states) == Last(states)
  {
    hide CanMove, OfDownloader;
    PrependPath(c, s, m, states, moves);
  }

  /** The steps left for the first `e` downloaders. */
  ghost function AllStepsLeft(c: Config, n: Node, e: nat): nat
    requires e <= |n.ds|
  {
    if e == 0 then 0 else AllStepsLeft(c, n, e - 1) + StepsLeft(c, n, e - 1)
  }

  /** A continuation after which the first `e` downloaders of node `a` have returned. */
  ghost predicate BringsHome(c: Config, s: Swarm, a: nat, e: nat, states: seq<Swarm>, moves: seq<Move>) {
    && Path(c, states, moves) && states != [] && states[0] == s && a < |s| && a < |Last(states)| && e <= |s[a].ds|
    && Good(c, Last(states), a) && Onward(c, s[a], Last(states)[a])
    && |moves| <= AllStepsLeft(c, s[a], e)
    && forall d: nat | d < e :: AllExited(Last(states)[a], d)
  }

  lemma NobodyIsBroughtHome(c: Config, s: Swarm, a: nat)
    requires Good(c, s, a)
    ensures BringsHome(c, s, a, 0, [s], [])
  {
    hide SwarmInv, Onward, AllExited, AllStepsLeft;
    NothingIsOnward(c, s[a]);
  }

  lemma NextToLeave(c: Config, s: Swarm, a: nat, e: nat, states: seq<Swarm>, moves: seq<Move>)
    requires BringsHome(c, s, a, e, states, moves) && s[a].cancelled && e < |s[a].ds|
    ensures states != [] && a < |Last(states)| && Good(c, Last(states), a) && IsLeaving(Last(states)[a], e)
    ensures StepsLeft(c, Last(states)[a], e) <= StepsLeft(c, s[a], e)
  {
    hide StepsLeft, AllExited, Good, Path;
    assert IsLeaving(s[a], e);
    assert Nearer(c, s[a], Last(states)[a], e, false);
  }

  lemma OneMoreIsBroughtHome(c: Config, s: Swarm, a: nat, e: nat, s1: seq<Swarm>, m1: seq<Move>,
                             s2: seq<Swarm>, m2: seq<Move>)
    requires BringsHome(c, s, a, e, s1, m1) && e < |s[a].ds| && Path(c, s2, m2) && s2 != [] && s2[0] == Last(s1)
    requires a < |Last(s2)| && Good(c, Last(s2), a) && Onward(c, Last(s1)[a], Last(s2)[a]) && AllExited(Last(s2)[a], e)
    requires |m2| <= StepsLeft(c, s[a], e)
    ensures BringsHome(c, s, a, e + 1, s1 + s2[1..], m1 + m2)
  {
    hide Good, Onward, AllExited, Path, StepsLeft;
    Joined(c, s1, m1, s2, m2);
    StillOnward(c, s[a], Last(s1)[a], Last(s2)[a]);
    StillExited(c, Last(s1)[a], Last(s2)[a]);
  }

  /** On a cancelled node all downloaders return, so that `wg.Wait` of the download comes to its end. */
  lemma {:induction false} LeaveAll(c: Config, sizes: seq<int>, s: Swarm, a: nat, e: nat)
    returns (states: seq<Swarm>, moves: seq<Move>)
    requires Trusted(c, sizes) && Good(c, s, a) && a < |s| && s[a].cancelled && e <= |s[a].ds|
    ensures BringsHome(c, s, a, e, states, moves)
    decreases e
  {
    hide *;
    if e == 0 {
      states, moves := [s], [];
      NobodyIsBroughtHome(c, s, a);
    } else {
      var s1, m1 := LeaveAll(c, sizes, s, a, e - 1);
      NextToLeave(c, s, a, e - 1, s1, m1);
      var s2, m2 := Leave(c, sizes, Last(s1), a, e - 1);
      OneMoreIsBroughtHome(c, s, a, e - 1, s1, m1, s2, m2);
      states, moves := s1 + s2[1..], m1 + m2;
    }
  }

  lemma StillExited(c: Config, n: Node, m: Node)
    requires Onward(c, n, m)
    ensures forall d: nat | AllExited(n, d) :: AllExited(m, d)
  {
    hide StepsLeft, AllExited, IsLeaving;
  }

  lemma Joined(c: Config, s1: seq<Swarm>, m1: seq<Move>, s2: seq<Swarm>, m2: seq<Move>)
    requires Path(c, s1, m1) && Path(c, s2, m2) && s1 != [] && s2 != [] && Last(s1) == s2[0]
    ensures Path(c, s1 + s2[1..], m1 + m2) && Last(s1 + s2[1..]) == Last(s2) && (s1 + s2[1..])[0] == s1[0]
  {
    hide Leads;
    Join(c, s1, m1, s2, m2);
  }

  /** Anybody can cancel a node and invalidate a downloader at any time, and both are for good. */
  lemma CanBeTold(c: Config, sizes: seq<int>, run: seq<Swarm>, taken: seq<Move>, k: nat, a: nat, d: nat)
    requires Trusted(c, sizes) && Run(c, run, taken) && k < |run| && a < |run[k]| && d < |run[k][a].ds|
    ensures var s, cancel, invalidate := run[k], Move(a, Cancel), Move(a, Invalidate(d));
            && CanMove(c, s, cancel) && (forall e: nat | e < |s[a].ds| :: IsLeaving(After(c, s, cancel)[a], e))
            && CanMove(c, s, invalidate) && IsLeaving(After(c, s, invalidate)[a], d)
    ensures forall e: nat | k + 1 < |run| && IsLeaving(run[k][a], e) :: a < |run[k + 1]| && IsLeaving(run[k + 1][a], e)
  {
    RunHolds(c, sizes, run, taken, k);
    assert Inv(c, run[k][a]);
    assert Shape(c, run[k][a]);
    hide Run, Trusted, SwarmInv, Inv, Shape;
    if k + 1 < |run| { StaysLeaving(c, sizes, run, taken, k, a); }
  }

  lemma StaysLeaving(c: Config, sizes: seq<int>, run: seq<Swarm>, taken: seq<Move>, k: nat, a: nat)
    requires Trusted(c, sizes) && Run(c, run, taken) && k + 1 < |run| && a < |run[k]|
    ensures forall e: nat | IsLeaving(run[k][a], e) :: a < |run[k + 1]| && IsLeaving(run[k + 1][a], e)
  {
    forall e: nat | IsLeaving(run[k][a], e) ensures a < |run[k + 1]| && IsLeaving(run[k + 1][a], e) {
      MoveIsNearer(c, sizes, run, taken, k, a, e);
    }
  }

  /** In whatever state a run has left a cancelled or invalid downloader, it can return, by a number of
      steps of its own that the plan and its number of workers bound. */
  lemma LeavingDownloaderReturns(c: Config, sizes: seq<int>, run: seq<Swarm>, taken: seq<Move>, k: nat, a: nat, d: nat)
    returns (states: seq<Swarm>, moves: seq<Move>)
    requires Trusted(c, sizes) && Run(c, run, taken) && k < |run| && a < |run[k]| && d < |run[k][a].ds|
    requires run[k][a].cancelled || !run[k][a].ds[d].valid
    ensures Path(c, states, moves) && states[0] == run[k] && OwnMoves(moves, a, d)
    ensures |moves| <= |run[k][a].ds[d].threads| * (LastRound(c) + 2)
    ensures a < |Last(states)| && AllExited(Last(states)[a], d)
  {
    RunHolds(c, sizes, run, taken, k);
    assert Inv(c, run[k][a]);
    hide Run, Trusted, SwarmInv, Inv, AllExited, Onward, Path, OwnMoves, StepsLeft, LastRound;
    states, moves := Leave(c, sizes, run[k], a, d);
    StepsLeftBound(c, run[k][a], d);
  }

  /** ... and a cancelled node can bring the whole download to its end. */
  lemma CancelledDownloadReturns(c: Config, sizes: seq<int>, run: seq<Swarm>, taken: seq<Move>, k: nat, a: nat)
    returns (states: seq<Swarm>, moves: seq<Move>)
    requires Trusted(c, sizes) && Run(c, run, taken) && k < |run| && a < |run[k]| && run[k][a].cancelled
    ensures Path(c, states, moves) && states[0] == run[k] && |moves| <= AllStepsLeft(c, run[k][a], |run[k][a].ds|)
    ensures a < |Last(states)| && |Last(states)[a].ds| == |run[k][a].ds|
    ensures forall d: nat | d < |run[k][a].ds| :: AllExited(Last(states)[a], d)
  {
    RunHolds(c, sizes, run, taken, k);
    hide Run, Trusted, SwarmInv, AllExited, Path, AllStepsLeft, IsLeaving, Nearer;
    states, moves := LeaveAll(c, sizes, run[k], a, |run[k][a].ds|);
  }

  // In every run its steps are numbered -----------------------------------------------------------

  ghost predicate LeavingAt(run: seq<Swarm>, x: nat, a: nat, d: nat) {
    x < |run| && a < |run[x]| && IsLeaving(run[x][a], d)
  }

  ghost predicate ReturnedAt(run: seq<Swarm>, x: nat, a: nat, d: nat) {
    x < |run| && a < |run[x]| && AllExited(run[x][a], d)
  }

  ghost predicate StepsAt(taken: seq<Move>, x: nat, a: nat, d: nat) {
    x < |taken| && taken[x].who == a && OfDownloader(taken[x].a, d)
  }

  /** How many of the moves from `j` to `k` are steps of downloader `d` of node `a`. */
  ghost function StepsTaken(taken: seq<Move>, a: nat, d: nat, j: nat, k: nat): nat
    decreases k
  {
    if k <= j then 0 else StepsTaken(taken, a, d, j, k - 1) + if StepsAt(taken, k - 1, a, d) then 1 else 0
  }

  ghost function StepsLeftAt(c: Config, run: seq<Swarm>, x: nat, a: nat, d: nat): nat {
    if LeavingAt(run, x, a, d) then StepsLeft(c, run[x][a], d) else 0
  }

  lemma MoveIsNearer(c: Config, sizes: seq<int>, run: seq<Swarm>, taken: seq<Move>, x: nat, a: nat, d: nat)
    requires Trusted(c, sizes) && Run(c, run, taken) && x + 1 < |run| && LeavingAt(run, x, a, d)
    ensures LeavingAt(run, x + 1, a, d)
    ensures StepsLeftAt(c, run, x + 1, a, d) + (if StepsAt(taken, x, a, d) then 1 else 0) <= StepsLeftAt(c, run, x, a, d)
  {
    StepOfRun(c, run, taken, x);
    RunHolds(c, sizes, run, taken, x);
    var s, m := run[x], taken[x];
    assert Inv(c, s[m.who]) && Shape(c, s[m.who]) && Enabled(c, s[m.who], m.a);
    hide Run, Trusted, SwarmInv, Inv, Shape, Enabled, Allowed, Next, IsLeaving, StepsLeft, OfDownloader;
    if m.who == a { NextIsNearer(c, s[a], m.a, d); }
  }

  /** Once a downloader leaves, its goroutines take no more than so many steps, in whatever run. */
  lemma {:induction false} StepsAreNumbered(c: Config, sizes: seq<int>, run: seq<Swarm>, taken: seq<Move>,
                                            j: nat, k: nat, a: nat, d: nat)
    requires Trusted(c, sizes) && Run(c, run, taken) && j <= k < |run| && LeavingAt(run, j, a, d)
    ensures LeavingAt(run, k, a, d)
    ensures StepsTaken(taken, a, d, j, k) + StepsLeftAt(c, run, k, a, d) <= StepsLeftAt(c, run, j, a, d)
    decreases k
  {
    hide Run, Trusted, LeavingAt, StepsLeftAt, StepsAt;
    if j < k {
      StepsAreNumbered(c, sizes, run, taken, j, k - 1, a, d);
      MoveIsNearer(c, sizes, run, taken, k - 1, a, d);
    }
  }

  // ... and in a fair run they are all taken ------------------------------------------------------

  ghost predicate ReadyAt(run: seq<Swarm>, x: nat, a: nat, d: nat, t: nat) {
    x < |run| && a < |run[x]| && Ready(run[x][a], d, t)
  }

  lemma MoveLeavesReady(c: Config, sizes: seq<int>, run: seq<Swarm>, taken: seq<Move>, x: nat, a: nat, d: nat, t: nat)
    requires Trusted(c, sizes) && Run(c, run, taken) && x + 1 < |run| && ReadyAt(run, x, a, d, t)
    requires !ActsAt(taken, x, a, d, t)
    ensures ReadyAt(run, x + 1, a, d, t)
  {
    StepOfRun(c, run, taken, x);
    RunHolds(c, sizes, run, taken, x);
    var s, m := run[x], taken[x];
    assert Inv(c, s[m.who]) && Shape(c, s[m.who]) && Enabled(c, s[m.who], m.a);
    hide Run, Trusted, SwarmInv, Inv, Shape, Enabled, Allowed, Next, Ready, ActsFor;
    if m.who == a { NextLeavesReady(c, s[a], m.a, d, t); }
  }

  /** Until its first turn, a ready goroutine stays ready. */
  lemma {:induction false} FirstTurnOfReady(c: Config, sizes: seq<int>, run: seq<Swarm>, taken: seq<Move>, x: nat, y: nat,
                                            a: nat, d: nat, t: nat) returns (z: nat)
    requires Trusted(c, sizes) && Run(c, run, taken) && x <= y < |run| && ReadyAt(run, x, a, d, t)
    ensures x <= z <= y && ReadyAt(run, z, a, d, t) && (z < y ==> ActsAt(taken, z, a, d, t))
    decreases y
  {
    hide Run, Trusted, ReadyAt, ActsAt;
    if x == y {
      z := y;
    } else {
      z := FirstTurnOfReady(c, sizes, run, taken, x, y - 1, a, d, t);
      if z == y - 1 && !ActsAt(taken, z, a, d, t) {
        MoveLeavesReady(c, sizes, run, taken, z, a, d, t);
        z := y;
      }
    }
  }

  lemma ReadyCanAct(run: seq<Swarm>, x: nat, a: nat, d: nat, t: nat)
    requires ReadyAt(run, x, a, d, t)
    ensures CanActAt(run, x, a, d, t)
  {
    hide CanAct;
  }

  lemma ReadyActs(c: Config, sizes: seq<int>, run: seq<Swarm>, taken: seq<Move>, a: nat, d: nat, j: nat, k: nat, window: nat,
                  x: nat, t: nat) returns (z: nat)
    requires Trusted(c, sizes) && Run(c, run, taken) && j <= x && x + window <= k < |run| && ReadyAt(run, x, a, d, t)
    requires Fair(run, taken, a, d, j, k, window)
    ensures x <= z < x + window && ActsAt(taken, z, a, d, t)
  {
    assert GetsATurn(run, taken, a, d, t, x, window);
    hide Run, Trusted, ActsAt, CanActAt, Fair, ReadyAt;
    var y: nat :| x <= y < x + window && (ActsAt(taken, y, a, d, t) || !CanActAt(run, y, a, d, t));
    z := FirstTurnOfReady(c, sizes, run, taken, x, y, a, d, t);
    if z == y { ReadyCanAct(run, y, a, d, t); }
  }

  lemma SomebodyIsReadyAt(c: Config, sizes: seq<int>, run: seq<Swarm>, taken: seq<Move>, x: nat, a: nat, d: nat)
    returns (t: nat)
    requires Trusted(c, sizes) && Run(c, run, taken) && LeavingAt(run, x, a, d) && !ReturnedAt(run, x, a, d)
    ensures ReadyAt(run, x, a, d, t)
  {
    RunHolds(c, sizes, run, taken, x);
    assert Inv(c, run[x][a]);
    hide Run, Trusted, SwarmInv, Inv, AllExited, Ready;
    t := SomebodyIsReady(c, run[x][a], d);
  }

  lemma {:induction false} ReturnedStays(c: Config, sizes: seq<int>, run: seq<Swarm>, taken: seq<Move>, x: nat, k: nat,
                                         a: nat, d: nat)
    requires Trusted(c, sizes) && Run(c, run, taken) && x <= k < |run| && ReturnedAt(run, x, a, d)
    ensures ReturnedAt(run, k, a, d)
    decreases k
  {
    hide Run, Trusted, SwarmInv, CanMove, AllExited;
    if x < k {
      ReturnedStays(c, sizes, run, taken, x, k - 1, a, d);
      StepOfRun(c, run, taken, k - 1);
      RunHolds(c, sizes, run, taken, k - 1);
      ReturnedAfter(c, run[k - 1], taken[k - 1], a, d);
    }
  }

  lemma ReturnedAfter(c: Config, s: Swarm, m: Move, a: nat, d: nat)
    requires SwarmInv(c, s) && CanMove(c, s, m) && a < |s| && AllExited(s[a], d)
    ensures AllExited(After(c, s, m)[a], d)
  {
    assert Inv(c, s[m.who]) && Enabled(c, s[m.who], m.a);
    hide SwarmInv, Inv, Enabled, Allowed, Shape, Next, AllExited;
    if m.who == a { NextKeepsExited(c, s[a], m.a, d); }
  }

  lemma {:induction false} StepsGrow(taken: seq<Move>, a: nat, d: nat, j: nat, y: nat, k: nat)
    requires j <= y <= k
    ensures StepsTaken(taken, a, d, j, k) >= StepsTaken(taken, a, d, j, y)
    ensures y < k && StepsAt(taken, y, a, d) ==> StepsTaken(taken, a, d, j, k) > StepsTaken(taken, a, d, j, y)
    decreases k
  {
    hide StepsAt;
    if y < k { StepsGrow(taken, a, d, j, y, k - 1); }
  }

  /** A window of a fair run holds a step of every downloader that leaves and has not returned. */
  lemma WindowHasAStep(c: Config, sizes: seq<int>, run: seq<Swarm>, taken: seq<Move>, a: nat, d: nat, j: nat, k: nat,
                       window: nat, x: nat)
    requires Trusted(c, sizes) && Run(c, run, taken) && j <= x && x + window <= k < |run|
    requires LeavingAt(run, j, a, d) && !ReturnedAt(run, k, a, d) && Fair(run, taken, a, d, j, k, window)
    ensures StepsTaken(taken, a, d, j, x + window) > StepsTaken(taken, a, d, j, x)
  {
    hide Run, Trusted, LeavingAt, ReturnedAt, Fair, ReadyAt, StepsTaken, OfDownloader;
    if ReturnedAt(run, x, a, d) { ReturnedStays(c, sizes, run, taken, x, k, a, d); }
    StepsAreNumbered(c, sizes, run, taken, j, x, a, d);
    var t := SomebodyIsReadyAt(c, sizes, run, taken, x, a, d);
    var z := ReadyActs(c, sizes, run, taken, a, d, j, k, window, x, t);
    assert StepsAt(taken, z, a, d);
    hide StepsAt, ActsAt;
    StepsGrow(taken, a, d, j, x, z);
    StepsGrow(taken, a, d, j, z, x + window);
  }

  lemma {:induction false} WindowsHaveSteps(c: Config, sizes: seq<int>, run: seq<Swarm>, taken: seq<Move>, a: nat, d: nat,
                                            j: nat, k: nat, window: nat, w: nat)
    requires Trusted(c, sizes) && Run(c, run, taken) && j + Windows(w, window) <= k < |run|
    requires LeavingAt(run, j, a, d) && !ReturnedAt(run, k, a, d) && Fair(run, taken, a, d, j, k, window)
    ensures StepsTaken(taken, a, d, j, j + Windows(w, window)) >= w
    decreases w
  {
    hide *;
    if w > 0 {
      OneWindowLess(w, window);
      WindowsHaveSteps(c, sizes, run, taken, a, d, j, k, window, w - 1);
      WindowHasAStep(c, sizes, run, taken, a, d, j, k, window, j + Windows(w - 1, window));
    }
  }

  function Windows(w: nat, window: nat): nat {
    w * window
  }

  lemma OneWindowLess(w: nat, window: nat)
    requires w > 0
    ensures Windows(w - 1, window) + window == Windows(w, window)
  {
  }

  /** Every fair run brings a downloader to its end once its node is cancelled, from inside or outside, or
      it is invalid: if each of its goroutines that can act gets a turn within every `window` moves, then
      after so many windows they have all returned, whatever fails and whatever the others do. */
  lemma FairRunsReturn(c: Config, sizes: seq<int>, run: seq<Swarm>, taken: seq<Move>, a: nat, d: nat, j: nat, k: nat,
                       window: nat)
    requires Trusted(c, sizes) && Run(c, run, taken) && j <= k < |run| && a < |run[j]| && d < |run[j][a].ds|
    requires run[j][a].cancelled || !run[j][a].ds[d].valid
    requires Fair(run, taken, a, d, j, k, window)
    requires k - j >= Windows(StepsLeft(c, run[j][a], d) + 1, window)
    ensures a < |run[k]| && AllExited(run[k][a], d)
  {
    assert LeavingAt(run, j, a, d) && StepsLeftAt(c, run, j, a, d) == StepsLeft(c, run[j][a], d);
    hide Run, Trusted, LeavingAt, Fair, StepsLeft, StepsTaken, AllExited, StepsLeftAt, Windows;
    if !ReturnedAt(run, k, a, d) {
      var w := StepsLeft(c, run[j][a], d) + 1;
      WindowsHaveSteps(c, sizes, run, taken, a, d, j, k, window, w);
      StepsGrow(taken, a, d, j, j + Windows(w, window), k);
      StepsAreNumbered(c, sizes, run, taken, j, k, a, d);
    }
  }

  /** A completed node is a cancelled one, so that its downloaders return as well. */
  lemma CompletedIsLeaving(c: Config, sizes: seq<int>, run: seq<Swarm>, taken: seq<Move>, k: nat, a: nat, d: nat)
    requires Trusted(c, sizes) && Run(c, run, taken) && k < |run| && a < |run[k]| && d < |run[k][a].ds|
    requires run[k][a].completed && !run[k][a].serveOnly
    ensures run[k][a].cancelled && IsLeaving(run[k][a], d)
  {
    RunHolds(c, sizes, run, taken, k);
    assert Inv(c, run[k][a]);
    hide Run, Trusted, SwarmInv, Shape, Tokens, Owners, CountsOf;
  }

  // The queue -------------------------------------------------------------------------------------

  /** Move `x` takes an entry from the queue of downloader `d` of node `a`. */
  ghost predicate PopsAt(run: seq<Swarm>, taken: seq<Move>, x: nat, a: nat, d: nat) {
    && x < |taken| && x < |run| && taken[x] == Move(a, Step(d, 0)) && a < |run[x]|
    && Thread(run[x][a], d, 0) && PcOf(run[x][a], d, 0).Popping? && run[x][a].ds[d].queue != []
  }

  ghost function Pops(run: seq<Swarm>, taken: seq<Move>, a: nat, d: nat, j: nat, k: nat): nat
    decreases k
  {
    if k <= j then 0 else Pops(run, taken, a, d, j, k - 1) + if PopsAt(run, taken, k - 1, a, d) then 1 else 0
  }

  /** The dispatcher is past its last look at the flag that is up. */
  ghost predicate MayPop(n: Node, d: nat) {
    Thread(n, d, 0) && (PcOf(n, d, 0).CheckReady? || PcOf(n, d, 0).Popping? || (PcOf(n, d, 0).CheckCancel? && !n.cancelled))
  }

  ghost predicate MayPopAt(run: seq<Swarm>, x: nat, a: nat, d: nat) {
    x < |run| && a < |run[x]| && MayPop(run[x][a], d)
  }

  lemma StepMayPop(c: Config, n: Node, e: nat, t: nat, d: nat)
    requires Inv(c, n) && Enabled(c, n, Step(e, t)) && IsLeaving(n, d)
    ensures MayPop(Next(c, n, Step(e, t)), d) ==>
              MayPop(n, d) && !((e, t) == (d, 0) && PcOf(n, d, 0).Popping?)
  {
    StepWorks(c, n, e, t);
    var m := Next(c, n, Step(e, t));
    ThreadFacts(c, n, e, t);
    assert Thread(m, d, 0) && (e, t) != (d, 0) ==> Thread(n, d, 0) && PcOf(m, d, 0) == PcOf(n, d, 0);
    hide Inv, Next, QueueStep, StatusStep, Goes, PcFits, SomeWorkerIsReady, AllWorkersExited;
  }

  lemma TransferMayPop(c: Config, n: Node, a: Action, d: nat)
    requires Inv(c, n) && OfTransfer(a) && Enabled(c, n, a) && MayPop(Next(c, n, a), d)
    ensures MayPop(n, d)
  {
    TransferWorked(c, n, a);
    hide Inv, Next, TransferTarget, QueueStep, StatusStep, Enabled;
  }

  lemma OtherMayPop(c: Config, n: Node, a: Action, d: nat)
    requires Shape(c, n) && Enabled(c, n, a) && IsLeaving(n, d) && !a.Step? && !OfTransfer(a) && MayPop(Next(c, n, a), d)
    ensures MayPop(n, d)
  {
    if a.HandOver? { HandOverThreads(n, a.d, a.t); }
    hide Shape, DoHandOver;
  }

  /** A leaving dispatcher pops only if it is past its last look, and then it is past it no more. */
  lemma NextMayPop(c: Config, n: Node, a: Action, d: nat)
    requires Inv(c, n) && Enabled(c, n, a) && IsLeaving(n, d) && MayPop(Next(c, n, a), d)
    ensures MayPop(n, d) && !(a == Step(d, 0) && PcOf(n, d, 0).Popping?)
  {
    assert Shape(c, n);
    hide Inv, Shape, Enabled, Next, MayPop;
    if a.Step? {
      StepMayPop(c, n, a.d, a.t, d);
    } else if OfTransfer(a) {
      TransferMayPop(c, n, a, d);
    } else {
      OtherMayPop(c, n, a, d);
    }
    hide IsLeaving;
    assert MayPop(n, d) ==> Thread(n, d, 0) by { MayPopHasDispatcher(n, d); }
  }

  lemma MayPopHasDispatcher(n: Node, d: nat)
    requires MayPop(n, d)
    ensures Thread(n, d, 0)
  {
  }

  lemma MovePops(c: Config, sizes: seq<int>, run: seq<Swarm>, taken: seq<Move>, x: nat, a: nat, d: nat)
    requires Trusted(c, sizes) && Run(c, run, taken) && x + 1 < |run| && LeavingAt(run, x, a, d)
    ensures PopsAt(run, taken, x, a, d) ==> MayPopAt(run, x, a, d) && !MayPopAt(run, x + 1, a, d)
    ensures MayPopAt(run, x + 1, a, d) ==> MayPopAt(run, x, a, d)
  {
    StepOfRun(c, run, taken, x);
    RunHolds(c, sizes, run, taken, x);
    var s, m := run[x], taken[x];
    assert Inv(c, s[m.who]) && Shape(c, s[m.who]) && Enabled(c, s[m.who], m.a);
    hide Run, Trusted, SwarmInv, Inv, Shape, Enabled, Allowed, Next, IsLeaving;
    if m.who == a && MayPopAt(run, x + 1, a, d) { NextMayPop(c, s[a], m.a, d); }
  }

  /** After its node was cancelled, or after it became invalid, a dispatcher takes at most one more entry
      from its queue, and only if it had looked at the flag before. */
  lemma {:induction false} OnePopAtMost(c: Config, sizes: seq<int>, run: seq<Swarm>, taken: seq<Move>,
                                        j: nat, k: nat, a: nat, d: nat)
    requires Trusted(c, sizes) && Run(c, run, taken) && j <= k < |run| && LeavingAt(run, j, a, d)
    ensures Pops(run, taken, a, d, j, k) + (if MayPopAt(run, k, a, d) then 1 else 0) <= if MayPopAt(run, j, a, d) then 1 else 0
    decreases k
  {
    hide Run, Trusted, LeavingAt, MayPopAt, PopsAt;
    if j < k {
      OnePopAtMost(c, sizes, run, taken, j, k - 1, a, d);
      StepsAreNumbered(c, sizes, run, taken, j, k - 1, a, d);
      MovePops(c, sizes, run, taken, k - 1, a, d);
    }
  }

  lemma StepQueue(c: Config, n: Node, e: nat, t: nat, d: nat)
    requires Inv(c, n) && Enabled(c, n, Step(e, t)) && d < |n.ds|
    ensures var m, q := Next(c, n, Step(e, t)), n.ds[d].queue;
            && d < |m.ds|
            && if (e, t) == (d, 0) && PcOf(n, d, 0).Popping? && q != [] then
                 m.ds[d].queue == q[1..] && Thread(m, d, 0) && PcOf(m, d, 0) == Popped(q[0])
               else q <= m.ds[d].queue
  {
    StepWorks(c, n, e, t);
    ThreadFacts(c, n, e, t);
    hide Inv, Next, StatusStep, Goes, PcFits, SomeWorkerIsReady, AllWorkersExited;
  }

  lemma OtherQueue(c: Config, n: Node, a: Action, d: nat)
    requires Shape(c, n) && Enabled(c, n, a) && !a.Step? && d < |n.ds|
    ensures d < |Next(c, n, a).ds| && n.ds[d].queue <= Next(c, n, a).ds[d].queue
  {
    if OfTransfer(a) {
      TransferMoves(c, n, a);
      hide Next, Shape, TransferTarget, Enabled;
    } else {
      if a.HandOver? { HandOverThreads(n, a.d, a.t); }
      hide Shape, DoHandOver;
    }
  }

  lemma MoveQueue(c: Config, sizes: seq<int>, run: seq<Swarm>, taken: seq<Move>, x: nat, a: nat, d: nat)
    requires Trusted(c, sizes) && Run(c, run, taken) && x + 1 < |run| && a < |run[x]| && d < |run[x][a].ds|
    ensures a < |run[x + 1]| && d < |run[x + 1][a].ds|
    ensures var q, q' := run[x][a].ds[d].queue, run[x + 1][a].ds[d].queue;
            if PopsAt(run, taken, x, a, d) then
              q != [] && q' == q[1..] && Thread(run[x + 1][a], d, 0) && PcOf(run[x + 1][a], d, 0) == Popped(q[0])
            else q <= q'
  {
    StepOfRun(c, run, taken, x);
    RunHolds(c, sizes, run, taken, x);
    var s, m := run[x], taken[x];
    assert Inv(c, s[m.who]) && Shape(c, s[m.who]) && Enabled(c, s[m.who], m.a);
    hide Run, Trusted, SwarmInv, Inv, Shape, Allowed, Next;
    if m.who == a {
      if m.a.Step? { StepQueue(c, s[a], m.a.d, m.a.t, d); } else { OtherQueue(c, s[a], m.a, d); }
    }
  }

  lemma {:induction false} QueueMovesUp(c: Config, sizes: seq<int>, run: seq<Swarm>, taken: seq<Move>,
                                        j: nat, k: nat, a: nat, d: nat)
    requires Trusted(c, sizes) && Run(c, run, taken) && j <= k < |run| && a < |run[j]| && d < |run[j][a].ds|
    ensures a < |run[k]| && d < |run[k][a].ds|
    ensures var p, q := Pops(run, taken, a, d, j, k), run[j][a].ds[d].queue;
            p <= |q| ==> q[p..] <= run[k][a].ds[d].queue
    decreases k
  {
    hide Run, Trusted, PopsAt;
    if j < k {
      QueueMovesUp(c, sizes, run, taken, j, k - 1, a, d);
      MoveQueue(c, sizes, run, taken, k - 1, a, d);
    }
  }

  /** The queue is first in, first out: an entry with `p` entries before it is what pop number `p` from
      then on takes, however many are added behind it. */
  lemma PoppedInTurn(c: Config, sizes: seq<int>, run: seq<Swarm>, taken: seq<Move>, j: nat, x: nat, a: nat, d: nat)
    requires Trusted(c, sizes) && Run(c, run, taken) && j <= x && x + 1 < |run| && a < |run[j]| && d < |run[j][a].ds|
    requires PopsAt(run, taken, x, a, d) && Pops(run, taken, a, d, j, x) < |run[j][a].ds[d].queue|
    ensures a < |run[x + 1]| && Thread(run[x + 1][a], d, 0)
    ensures PcOf(run[x + 1][a], d, 0) == Popped(run[j][a].ds[d].queue[Pops(run, taken, a, d, j, x)])
  {
    hide Run, Trusted, Pops, PopsAt;
    QueueMovesUp(c, sizes, run, taken, j, x, a, d);
    MoveQueue(c, sizes, run, taken, x, a, d);
  }
}
