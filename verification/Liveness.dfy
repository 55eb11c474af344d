/** No dead states: the work that is left can always be done. */
module Liveness {
  import opened Names
  import opened Storing
  import opened ChunkWriting
  import opened Nodes
  import opened NodeInvariants
  import opened NodeSteps
  import opened Swarms
  import opened SwarmSafety
  import opened Weights

  // The next piece of work of a goroutine ----------------------------------------------

  /** What goroutine (d, t) does next if nothing fails. */
  ghost function WorkOf(c: Config, n: Node, d: nat, t: nat): Action
    requires Thread(n, d, t) && PcFits(c, PcOf(n, d, t))
  {
    match PcOf(n, d, t)
    case Requesting(i) => Action.Reply(d, t, Expected(c, i))
    case Writing(i, k, got, _) =>
      if k == |c.plan[i]| then CheckSum(d, t)
      else if |got| == Bound(c, i, k + 1) then EndRange(d, t)
      else Receive(d, t, Missing(c, i, k, |got|))
    case _ => Step(d, t)
  }

  /** The source's bytes from `n` to the end of range `k` of chunk `i`. */
  ghost function Missing(c: Config, i: nat, k: nat, n: nat): seq<byte>
    requires i < |c.plan| && k < |c.plan[i]| && n <= Bound(c, i, k + 1)
  {
    BoundWithin(c, i, k + 1);
    SourceBytes(c, i)[n..Bound(c, i, k + 1)]
  }

  ghost function WorkTarget(c: Config, n: Node, d: nat, t: nat): Pc
    requires Thread(n, d, t) && PcFits(c, PcOf(n, d, t)) && |n.status| == |c.plan|
  {
    match PcOf(n, d, t)
    case Requesting(i) => Writing(i, 0, [], Expected(c, i))
    case Writing(i, k, got, expected) =>
      if k == |c.plan[i]| then Verdict(c, PcOf(n, d, t))
      else if |got| == Bound(c, i, k + 1) then Writing(i, k + 1, got, expected)
      else Writing(i, k, got + Missing(c, i, k, |got|), expected)
    case _ => Target(c, n, d, t)
  }

  /** A goroutine that can do a piece of work on its own: any but a dispatcher that waits to send. */
  ghost predicate Works(c: Config, n: Node, d: nat, t: nat) {
    Thread(n, d, t) && !Idle(PcOf(n, d, t)) && !PcOf(n, d, t).Sending?
  }

  lemma ReplyFacts(c: Config, s: Swarm, a: nat, d: nat, t: nat, i: nat)
    requires SwarmInv(c, s) && a < |s| && Thread(s[a], d, t) && PcOf(s[a], d, t) == Requesting(i) && i < |c.plan|
    ensures Digest(c, s[a], i, SourceBytes(c, i)) == c.hash(SourceBytes(c, i))
    ensures s[a].ds[d].kind.Peer? ==>
              var h := s[a].ds[d].kind.host;
              h < |s| && Served(s[h], i) && Digest(c, s[h], i, ServedBytes(c, s[h], i)) == c.hash(SourceBytes(c, i))
  {
    var n := s[a];
    assert NodeHolds(c, n);
    assert n.ds[d].kind.Peer? && n.ds[d].kind.host < |s| ==> NodeHolds(c, s[n.ds[d].kind.host]);
    hide SwarmInv, SourceBytes, ServedBytes, Served, Digest, NodeHolds;
    DigestHolds(c, n, i);
    if n.ds[d].kind.Peer? {
      var h := n.ds[d].kind.host;
      HandIsServed(c, s, a, d, t);
      ServedHolds(c, s, h, i);
      DigestHolds(c, s[h], i);
    }
  }

  lemma ReplyByFacts(c: Config, s: Swarm, a: nat, d: nat, t: nat, i: nat)
    requires a < |s| && Shape(c, s[a]) && Thread(s[a], d, t) && PcOf(s[a], d, t) == Requesting(i) && i < |c.plan|
    requires Digest(c, s[a], i, SourceBytes(c, i)) == c.hash(SourceBytes(c, i))
    requires s[a].ds[d].kind.Peer? ==>
               var h := s[a].ds[d].kind.host;
               h < |s| && Served(s[h], i) && Digest(c, s[h], i, ServedBytes(c, s[h], i)) == c.hash(SourceBytes(c, i))
    ensures CanMove(c, s, Move(a, Reply(d, t, Expected(c, i))))
  {
    hide SourceBytes, ServedBytes, Served, Digest, Shape;
  }

  lemma ReplyIsAllowed(c: Config, s: Swarm, a: nat, d: nat, t: nat, i: nat)
    requires SwarmInv(c, s) && a < |s| && Shape(c, s[a])
    requires Thread(s[a], d, t) && PcOf(s[a], d, t) == Requesting(i) && i < |c.plan|
    ensures CanMove(c, s, Move(a, Reply(d, t, Expected(c, i))))
  {
    hide *;
    ReplyFacts(c, s, a, d, t, i);
    ReplyByFacts(c, s, a, d, t, i);
  }

  lemma MissingFits(c: Config, n: Node, d: nat, t: nat)
    requires Thread(n, d, t)
    requires var pc := PcOf(n, d, t);
             pc.Writing? && PcFits(c, pc) && pc.k < |c.plan[pc.i]| && |pc.got| < Bound(c, pc.i, pc.k + 1)
    ensures var pc := PcOf(n, d, t);
            var data := Missing(c, pc.i, pc.k, |pc.got|);
            Enabled(c, n, Receive(d, t, data)) && Delivers(c, pc, data, SourceBytes(c, pc.i))
  {
    var pc := PcOf(n, d, t);
    BoundWithin(c, pc.i, pc.k + 1);
    hide Bound, SourceBytes, Addrs, PcFits;
  }

  lemma ReceiveIsAllowed(c: Config, s: Swarm, a: nat, d: nat, t: nat)
    requires SwarmInv(c, s) && a < |s| && Shape(c, s[a]) && Thread(s[a], d, t)
    requires var pc := PcOf(s[a], d, t);
             pc.Writing? && PcFits(c, pc) && pc.k < |c.plan[pc.i]| && |pc.got| < Bound(c, pc.i, pc.k + 1)
    ensures var pc := PcOf(s[a], d, t);
            CanMove(c, s, Move(a, Receive(d, t, Missing(c, pc.i, pc.k, |pc.got|))))
  {
    hide SwarmInv, Bound, Shape, Token, Upstream, SourceBytes, Enabled, Delivers, Missing;
    var pc, n := PcOf(s[a], d, t), s[a];
    MissingFits(c, n, d, t);
    TransferFacts(pc);
    UpstreamHolds(c, s, a, d, t, pc.i);
  }

  /** The steps that need no other node. */
  lemma OwnWorkIsEnabled(c: Config, n: Node, d: nat, t: nat)
    requires Works(c, n, d, t) && PcFits(c, PcOf(n, d, t)) && !PcOf(n, d, t).Requesting?
    requires !WorkOf(c, n, d, t).Receive?
    ensures var w := WorkOf(c, n, d, t); (w.EndRange? || w.CheckSum? || w.Step?) && Enabled(c, n, w)
  {
    hide Bound, AllWorkersExited;
  }

  lemma OwnWorkIsAllowed(c: Config, s: Swarm, a: nat, w: Action)
    requires a < |s| && Shape(c, s[a]) && (w.EndRange? || w.CheckSum? || w.Step?) && Enabled(c, s[a], w)
    ensures CanMove(c, s, Move(a, w))
  {
    hide Enabled, Shape;
  }

  /** Whatever piece of work a goroutine has next, the swarm lets it do. */
  lemma WorkIsAllowed(c: Config, s: Swarm, a: nat, d: nat, t: nat)
    requires SwarmInv(c, s) && a < |s| && Shape(c, s[a]) && Works(c, s[a], d, t) && PcFits(c, PcOf(s[a], d, t))
    ensures CanMove(c, s, Move(a, WorkOf(c, s[a], d, t)))
  {
    var pc, n := PcOf(s[a], d, t), s[a];
    hide SwarmInv, Shape, CanMove, Bound, Missing, Expected;
    if pc.Requesting? {
      ReplyIsAllowed(c, s, a, d, t, pc.i);
    } else if WorkOf(c, n, d, t).Receive? {
      ReceiveIsAllowed(c, s, a, d, t);
    } else {
      OwnWorkIsEnabled(c, n, d, t);
      OwnWorkIsAllowed(c, s, a, WorkOf(c, n, d, t));
    }
  }

  // What a piece of work changes ---------------------------------------------------------

  /** Goroutine (d, t) has gone on to `to`; the others have not moved. */
  ghost predicate Worked(n: Node, m: Node, d: nat, t: nat, to: Pc) {
    && Thread(n, d, t) && |m.ds| == |n.ds| && m.ds == n.ds[d := m.ds[d]] && m.serveOnly == n.serveOnly
    && m.ds[d].threads == n.ds[d].threads[t := to]
    && m.ds[d].kind == n.ds[d].kind && m.ds[d].known == n.ds[d].known && m.ds[d].valid == n.ds[d].valid
    && QueueStep(n.ds[d], PcOf(n, d, t), m.ds[d]) && StatusStep(n.status, PcOf(n, d, t), m.status)
    && m.cancelled == (n.cancelled || PcOf(n, d, t).Cancelling?)
    && m.completed == (n.completed || PcOf(n, d, t).Completing?)
  }

  lemma JumpWorks(n: Node, d: nat, t: nat, to: Pc, m: Node)
    requires Thread(n, d, t) && (PcOf(n, d, t).Requesting? || PcOf(n, d, t).Writing?)
    requires m == Jump(n, d, t, to).(store := m.store, tally := m.tally, log := m.log)
    ensures Worked(n, m, d, t, to)
  {
  }

  lemma TransferWorks(c: Config, n: Node, d: nat, t: nat)
    requires Shape(c, n) && Works(c, n, d, t) && PcFits(c, PcOf(n, d, t)) && Enabled(c, n, WorkOf(c, n, d, t))
    requires PcOf(n, d, t).Requesting? || PcOf(n, d, t).Writing?
    ensures Worked(n, Next(c, n, WorkOf(c, n, d, t)), d, t, WorkTarget(c, n, d, t))
  {
    assert |n.status| == |c.plan|;
    hide Shape, Bound, Addrs, Put, Verdict, FinishRange, Missing, Expected, Jump, Worked, Idle;
    var m, to := Next(c, n, WorkOf(c, n, d, t)), WorkTarget(c, n, d, t);
    if WorkOf(c, n, d, t).Receive? { BoundWithin(c, PcOf(n, d, t).i, PcOf(n, d, t).k + 1); }
    hide PcFits;
    JumpWorks(n, d, t, to, m);
  }

  lemma StepWorks(c: Config, n: Node, d: nat, t: nat)
    requires Inv(c, n) && Enabled(c, n, Step(d, t))
    ensures Steps(n, d, t) && Goes(c, n, Next(c, n, Step(d, t)), d, t, Target(c, n, d, t))
    ensures Worked(n, Next(c, n, Step(d, t)), d, t, Target(c, n, d, t))
  {
    assert Next(c, n, Step(d, t)) == DoStep(c, n, d, t);
    hide Inv, Next, Enabled, DoStep, Target, QueueStep, StatusStep, Steps;
    CanStepFacts(c, n, d, t);
    var to := StepMoves(c, n, d, t);
  }

  lemma WorkWorks(c: Config, n: Node, d: nat, t: nat)
    requires Inv(c, n) && Works(c, n, d, t) && Enabled(c, n, WorkOf(c, n, d, t)) && PcFits(c, PcOf(n, d, t))
    requires |n.status| == |c.plan|
    ensures Worked(n, Next(c, n, WorkOf(c, n, d, t)), d, t, WorkTarget(c, n, d, t))
  {
    assert Shape(c, n);
    hide Inv, Shape, Worked, Next, Bound, Missing, Enabled;
    if PcOf(n, d, t).Requesting? || PcOf(n, d, t).Writing? {
      TransferWorks(c, n, d, t);
    } else {
      StepWorks(c, n, d, t);
    }
  }

  lemma TransferLowersWeight(c: Config, n: Node, d: nat, t: nat)
    requires Works(c, n, d, t) && PcFits(c, PcOf(n, d, t)) && |n.status| == |c.plan|
    requires PcOf(n, d, t).Requesting? || PcOf(n, d, t).Writing?
    ensures Weight(c, WorkTarget(c, n, d, t), false) < Weight(c, PcOf(n, d, t), false)
  {
    var pc := PcOf(n, d, t);
    if pc.Writing? && pc.k < |c.plan[pc.i]| { BoundWithin(c, pc.i, pc.k + 1); }
    hide Bound, Addrs, Verdict;
    if pc.Writing? && pc.k == |c.plan[pc.i]| { VerdictFits(c, pc); }
  }

  lemma WorkLowersWeight(c: Config, n: Node, d: nat, t: nat)
    requires Inv(c, n) && Works(c, n, d, t) && PcFits(c, PcOf(n, d, t)) && |n.status| == |c.plan|
    requires Enabled(c, n, WorkOf(c, n, d, t))
    ensures Weight(c, WorkTarget(c, n, d, t), false) < Weight(c, PcOf(n, d, t), false)
  {
    hide Inv, Weight, Enabled, Target, Idle, PcFits, Missing;
    if PcOf(n, d, t).Requesting? || PcOf(n, d, t).Writing? {
      TransferLowersWeight(c, n, d, t);
    } else {
      CanStepFacts(c, n, d, t);
      StepLowersWeight(c, n, d, t);
    }
  }

  // Draining: everything under way is brought to an end ------------------------------------

  ghost predicate Live(n: Node, d: nat) {
    Thread(n, d, 0) && !PcOf(n, d, 0).Closing? && !PcOf(n, d, 0).Exited?
  }

  ghost predicate Finishing(n: Node) {
    exists d: nat, t: nat :: Thread(n, d, t) && PcOf(n, d, t).Completing?
  }

  /** Nobody but `CompleteOne` has cancelled the download. */
  ghost predicate CancelledInside(n: Node) {
    n.cancelled ==> n.completed || Finishing(n)
  }

  /** No downloader has been added, closed, invalidated, or told of chunks. */
  ghost predicate Stays(n: Node, m: Node) {
    && |m.ds| == |n.ds| && m.serveOnly == n.serveOnly && (n.completed ==> m.completed)
    && (forall d: nat | d < |n.ds| ::
          && m.ds[d].kind == n.ds[d].kind && m.ds[d].known == n.ds[d].known && m.ds[d].valid == n.ds[d].valid
          && |m.ds[d].threads| == |n.ds[d].threads|)
    && (forall d: nat | Live(n, d) :: Live(m, d)) && (CancelledInside(n) ==> CancelledInside(m))
  }

  lemma BusyTarget(c: Config, n: Node, d: nat, t: nat)
    requires Works(c, n, d, t) && PcFits(c, PcOf(n, d, t)) && |n.status| == |c.plan|
    ensures var to := WorkTarget(c, n, d, t);
            !to.Closing? && !to.Exited? && (PcOf(n, d, t).Cancelling? ==> to.Completing?)
  {
    hide Bound, SomeWorkerIsReady;
  }

  lemma WorkedStays(n: Node, m: Node, d: nat, t: nat, to: Pc)
    requires Worked(n, m, d, t, to) && !to.Closing? && !to.Exited? && (PcOf(n, d, t).Cancelling? ==> to.Completing?)
    ensures Stays(n, m)
  {
    if CancelledInside(n) { WorkedCancels(n, m, d, t, to); }
    hide QueueStep, StatusStep, CancelledInside;
    assert forall e: nat | Live(n, e) :: Live(m, e);
  }

  lemma WorkedCancels(n: Node, m: Node, d: nat, t: nat, to: Pc)
    requires Worked(n, m, d, t, to) && CancelledInside(n) && (PcOf(n, d, t).Cancelling? ==> to.Completing?)
    ensures CancelledInside(m)
  {
    hide QueueStep, StatusStep;
    if PcOf(n, d, t).Cancelling? {
      assert PcOf(m, d, t).Completing?;
    } else if m.cancelled && !m.completed {
      var e: nat, u: nat :| Thread(n, e, u) && PcOf(n, e, u).Completing?;
      assert PcOf(m, e, u).Completing?;
    }
  }

  lemma WorkedLoad(c: Config, n: Node, m: Node, d: nat, t: nat, to: Pc)
    requires Worked(n, m, d, t, to)
    ensures Load(c, m.ds) + Weight(c, PcOf(n, d, t), false) == Load(c, n.ds) + Weight(c, to, false)
  {
    LoadOfUpdate(c, n.ds[d].threads, t, to, false);
    LoadUpdate(c, n.ds, d, m.ds[d]);
    hide Load, LoadOf, Weight, QueueStep, StatusStep;
  }

  lemma HandOverThreads(n: Node, d: nat, t: nat)
    requires Thread(n, d, 0) && Thread(n, d, t) && t > 0 && PcOf(n, d, 0).Sending? && PcOf(n, d, t).Waiting?
    ensures var m, i, dl := DoHandOver(n, d, t), PcOf(n, d, 0).i, n.ds[d];
            && |m.ds| == |n.ds| && m.ds == n.ds[d := m.ds[d]] && m.serveOnly == n.serveOnly
            && m.ds[d].threads == dl.threads[0 := CheckValid][t := Received(i)]
            && m.ds[d].kind == dl.kind && m.ds[d].known == dl.known && m.ds[d].valid == dl.valid && m.ds[d].queue == dl.queue
            && m.ds[d].numCompleted == dl.numCompleted
            && m.cancelled == n.cancelled && m.completed == n.completed && m.status == n.status
  {
  }

  lemma HandOverLoad(c: Config, n: Node, d: nat, t: nat)
    requires Thread(n, d, 0) && Thread(n, d, t) && t > 0 && PcOf(n, d, 0).Sending? && PcOf(n, d, t).Waiting?
    ensures Load(c, DoHandOver(n, d, t).ds) + 1 == Load(c, n.ds)
  {
    var m, i, dl := DoHandOver(n, d, t), PcOf(n, d, 0).i, n.ds[d];
    HandOverThreads(n, d, t);
    LoadOfUpdate(c, dl.threads, 0, CheckValid, false);
    LoadOfUpdate(c, dl.threads[0 := CheckValid], t, Received(i), false);
    LoadUpdate(c, n.ds, d, m.ds[d]);
    hide Load, LoadOf, DoHandOver, Cost;
  }

  lemma HandOverStays(n: Node, d: nat, t: nat)
    requires Thread(n, d, 0) && Thread(n, d, t) && t > 0 && PcOf(n, d, 0).Sending? && PcOf(n, d, t).Waiting?
    ensures Stays(n, DoHandOver(n, d, t))
  {
    HandOverThreads(n, d, t);
    var m := DoHandOver(n, d, t);
    hide DoHandOver;
    assert forall e: nat | Live(n, e) :: Live(m, e);
    if Finishing(n) {
      var e: nat, u: nat :| Thread(n, e, u) && PcOf(n, e, u).Completing?;
      assert PcOf(m, e, u).Completing?;
    }
  }

  /** If there is work left, some goroutine can do it: either on its own, or a dispatcher can hand over
      to a worker that waits. */
  lemma FindWork(c: Config, n: Node) returns (d: nat, t: nat)
    requires Inv(c, n) && Load(c, n.ds) > 0
    ensures Thread(n, d, t) && (Works(c, n, d, t) || (PcOf(n, d, 0).Sending? && t > 0 && PcOf(n, d, t).Waiting?))
  {
    d := BusyDownloader(c, n.ds);
    t := FindWorkOf(c, n, d);
  }

  lemma FindWorkOf(c: Config, n: Node, d: nat) returns (t: nat)
    requires Inv(c, n) && d < |n.ds| && LoadOf(c, n.ds[d].threads, false) > 0
    ensures Thread(n, d, t) && (Works(c, n, d, t) || (PcOf(n, d, 0).Sending? && t > 0 && PcOf(n, d, t).Waiting?))
  {
    t := BusyThread(c, n.ds[d].threads);
    if PcOf(n, d, t).Sending? {
      ThreadFacts(c, n, d, t);
      ThreadFacts(c, n, d, 1) by { InvOf(c, n, d); }
    }
    hide Inv, LoadOf, Cost, PcFits;
    if PcOf(n, d, t).Sending? {
      t := 1;
    }
  }

  /** A continuation: states from `states[0]` on, one move between each two of them. */
  ghost predicate Path(c: Config, states: seq<Swarm>, moves: seq<Move>) {
    && |states| == |moves| + 1
    && forall k | 0 <= k < |moves| :: Leads(c, states[k], moves[k], states[k + 1])
  }

  /** The step makes an attempt fail. */
  ghost predicate Fails(c: Config, n: Node, a: Action) {
    match a
    case Fail(_, _) => true
    case CheckSum(d, t) => Thread(n, d, t) && PcOf(n, d, t).Writing? && Verdict(c, PcOf(n, d, t)).Failing?
    case _ => false
  }

  /** What the goroutine has received of its chunk is what the source has. */
  ghost predicate Uncorrupted(c: Config, pc: Pc) {
    pc.Writing? ==>
      pc.i < |c.plan| && |pc.got| <= |Addrs(c, pc.i)| && pc.got == SourceBytes(c, pc.i)[..|pc.got|]
  }

  /** The transfer of goroutine (d, t) has received a wrong byte. */
  ghost predicate Tainted(c: Config, n: Node, d: nat, t: nat) {
    Thread(n, d, t) && !Uncorrupted(c, PcOf(n, d, t))
  }

  ghost predicate NoNewTaint(c: Config, n: Node, m: Node) {
    forall d: nat, t: nat | Tainted(c, m, d, t) :: Tainted(c, n, d, t)
  }

  /** Without verification every transfer delivers what the source has. */
  lemma UnverifiedIsUntainted(c: Config, n: Node, d: nat, t: nat)
    requires NodeHolds(c, n) && !c.verify
    ensures !Tainted(c, n, d, t)
  {
    hide DoneHolds, CacheAgrees, Content;
    if Thread(n, d, t) { assert PcHolds(c, n.store, PcOf(n, d, t)); }
  }

  /** A step of node `a` that makes nothing fail, except that a transfer that had received a wrong byte
      when the node was `start` may fail its checksum test. */
  ghost predicate Harmless(c: Config, s: Swarm, m: Move, a: nat, start: Node) {
    && m.who == a && a < |s| && !m.a.Fail? && !m.a.Cancel? && !m.a.Invalidate? && !m.a.Spawn?
    && (m.a.CheckSum? && Fails(c, s[a], m.a) ==> Tainted(c, start, m.a.d, m.a.t))
  }

  ghost predicate FaultFree(c: Config, states: seq<Swarm>, moves: seq<Move>, a: nat, start: Node) {
    |states| == |moves| + 1 && forall k | 0 <= k < |moves| :: Harmless(c, states[k], moves[k], a, start)
  }

  ghost predicate Good(c: Config, s: Swarm, a: nat) {
    SwarmInv(c, s) && a < |s|
  }

  lemma WorkIsEnabled(c: Config, s: Swarm, a: nat, d: nat, t: nat)
    requires SwarmInv(c, s) && a < |s| && Works(c, s[a], d, t)
    ensures Thread(s[a], d, t) && PcFits(c, PcOf(s[a], d, t)) && |s[a].status| == |c.plan| && Inv(c, s[a])
    ensures PcHolds(c, s[a].store, PcOf(s[a], d, t))
    ensures var m := Move(a, WorkOf(c, s[a], d, t));
            CanMove(c, s, m) && Shape(c, s[a]) && Enabled(c, s[a], m.a)
  {
    var n := s[a];
    assert Inv(c, n);
    assert NodeHolds(c, n);
    assert Shape(c, n);
    ThreadFacts(c, n, d, t);
    hide SwarmInv, Inv, Shape, Idle, PcHolds;
    WorkIsAllowed(c, s, a, d, t);
    hide Enabled, Allowed, Bound, Missing, Expected;
  }

  /** A transfer that goes on with the source's bytes stays uncorrupted and passes its test. */
  lemma WritingGoesOn(c: Config, n: Node, d: nat, t: nat)
    requires Works(c, n, d, t) && PcFits(c, PcOf(n, d, t)) && |n.status| == |c.plan|
    requires Uncorrupted(c, PcOf(n, d, t)) && PcHolds(c, n.store, PcOf(n, d, t)) && PcOf(n, d, t).Writing?
    ensures Uncorrupted(c, WorkTarget(c, n, d, t)) && !WorkTarget(c, n, d, t).Failing?
  {
    var pc := PcOf(n, d, t);
    var all := SourceBytes(c, pc.i);
    if pc.k == |c.plan[pc.i]| {
      hide Addrs, Content, Bound;
      assert all[..|all|] == all;
    } else {
      BoundWithin(c, pc.i, pc.k + 1);
      hide Addrs, Content, Bound;
      var m := Bound(c, pc.i, pc.k + 1);
      assert all[..|pc.got|] + all[|pc.got|..m] == all[..m];
    }
  }

  lemma WorkGoesOn(c: Config, n: Node, d: nat, t: nat)
    requires Works(c, n, d, t) && PcFits(c, PcOf(n, d, t)) && |n.status| == |c.plan|
    requires Uncorrupted(c, PcOf(n, d, t)) && PcHolds(c, n.store, PcOf(n, d, t))
    ensures Uncorrupted(c, WorkTarget(c, n, d, t)) && !Fails(c, n, WorkOf(c, n, d, t))
  {
    hide Addrs, SourceBytes, SomeWorkerIsReady, Expected, Verdict, Missing, Bound, Content;
    if PcOf(n, d, t).Writing? { WritingGoesOn(c, n, d, t); }
    hide PcHolds, PcFits;
  }

  lemma WorkedTaint(c: Config, n: Node, m: Node, d: nat, t: nat, to: Pc)
    requires Worked(n, m, d, t, to) && (Uncorrupted(c, to) || Tainted(c, n, d, t))
    ensures NoNewTaint(c, n, m)
  {
    hide Uncorrupted, QueueStep, StatusStep;
    assert forall e: nat, u: nat | Thread(m, e, u) :: Thread(n, e, u);
    assert forall e: nat, u: nat | Thread(m, e, u) && (e, u) != (d, t) :: PcOf(m, e, u) == PcOf(n, e, u);
  }

  lemma WorkIsHarmless(c: Config, s: Swarm, s': Swarm, a: nat, d: nat, t: nat, m: Move)
    requires a < |s| == |s'| && Works(c, s[a], d, t) && PcFits(c, PcOf(s[a], d, t)) && |s[a].status| == |c.plan|
    requires m == Move(a, WorkOf(c, s[a], d, t)) && PcHolds(c, s[a].store, PcOf(s[a], d, t))
    requires Worked(s[a], s'[a], d, t, WorkTarget(c, s[a], d, t))
    ensures Harmless(c, s, m, a, s[a]) && NoNewTaint(c, s[a], s'[a])
  {
    var n := s[a];
    assert !m.a.Fail? && !m.a.Cancel? && !m.a.Invalidate? && !m.a.Spawn? && (m.a.CheckSum? ==> m.a.d == d && m.a.t == t) by {
      hide Bound, Missing, Expected, Uncorrupted, PcHolds, PcFits;
    }
    assert Thread(n, d, t);
    hide Fails, NoNewTaint, WorkOf, WorkTarget, Works, Worked, PcHolds, PcFits, Uncorrupted;
    if Uncorrupted(c, PcOf(n, d, t)) { WorkGoesOn(c, n, d, t); }
    WorkedTaint(c, n, s'[a], d, t, WorkTarget(c, n, d, t));
  }

  lemma WorkIsGood(c: Config, sizes: seq<int>, s: Swarm, a: nat, d: nat, t: nat) returns (m: Move)
    requires Trusted(c, sizes) && Good(c, s, a) && Works(c, s[a], d, t)
    ensures CanMove(c, s, m) && Good(c, After(c, s, m), a)
    ensures Harmless(c, s, m, a, s[a]) && NoNewTaint(c, s[a], After(c, s, m)[a])
    ensures var n, n' := s[a], After(c, s, m)[a];
            && Stays(n, n') && Load(c, n'.ds) < Load(c, n.ds)
            && Thread(n, d, t) && PcFits(c, PcOf(n, d, t)) && |n.status| == |c.plan|
            && Worked(n, n', d, t, WorkTarget(c, n, d, t))
  {
    var n := s[a];
    WorkIsEnabled(c, s, a, d, t);
    m := Move(a, WorkOf(c, n, d, t));
    hide SwarmInv, Trusted, Inv, Shape, Works, CanMove, Worked, Stays, WorkOf, WorkTarget, Weight, Load, Next, Harmless,
      NoNewTaint, PcFits, PcHolds, Enabled;
    MoveKeepsSwarmInv(c, sizes, s, m);
    var s' := After(c, s, m);
    WorkWorks(c, n, d, t);
    WorkLowersWeight(c, n, d, t);
    BusyTarget(c, n, d, t);
    WorkedLoad(c, n, s'[a], d, t, WorkTarget(c, n, d, t));
    WorkedStays(n, s'[a], d, t, WorkTarget(c, n, d, t));
    WorkIsHarmless(c, s, s', a, d, t, m);
  }

  lemma HandOverTaint(c: Config, n: Node, d: nat, t: nat)
    requires Thread(n, d, 0) && Thread(n, d, t) && t > 0 && PcOf(n, d, 0).Sending? && PcOf(n, d, t).Waiting?
    ensures NoNewTaint(c, n, DoHandOver(n, d, t))
  {
    HandOverThreads(n, d, t);
    var m := DoHandOver(n, d, t);
    hide DoHandOver, Addrs, SourceBytes;
    assert forall e: nat, u: nat | Thread(m, e, u) :: Thread(n, e, u);
  }

  lemma HandOverIsAllowed(c: Config, s: Swarm, a: nat, d: nat, t: nat)
    requires a < |s| && Shape(c, s[a]) && Thread(s[a], d, t) && t > 0
    requires PcOf(s[a], d, 0).Sending? && PcOf(s[a], d, t).Waiting?
    ensures var m := Move(a, HandOver(d, t));
            CanMove(c, s, m) && After(c, s, m)[a] == DoHandOver(s[a], d, t) && Harmless(c, s, m, a, s[a])
  {
    hide Shape, DoHandOver;
  }

  lemma HandOverIsGood(c: Config, sizes: seq<int>, s: Swarm, a: nat, d: nat, t: nat) returns (m: Move)
    requires Trusted(c, sizes) && Good(c, s, a) && Thread(s[a], d, t) && t > 0
    requires PcOf(s[a], d, 0).Sending? && PcOf(s[a], d, t).Waiting?
    ensures CanMove(c, s, m) && Good(c, After(c, s, m), a)
    ensures Harmless(c, s, m, a, s[a]) && NoNewTaint(c, s[a], After(c, s, m)[a])
    ensures var n, n' := s[a], After(c, s, m)[a];
            Stays(n, n') && Load(c, n'.ds) < Load(c, n.ds) && n' == DoHandOver(n, d, t)
  {
    var n := s[a];
    assert Inv(c, n);
    assert Shape(c, n);
    m := Move(a, HandOver(d, t));
    assert |s| == |s[a := n]|;
    hide SwarmInv, Trusted, Inv, Shape, CanMove, Stays, Load, Next, DoHandOver, Harmless, PcOf, Thread, NoNewTaint;
    HandOverIsAllowed(c, s, a, d, t);
    MoveKeepsSwarmInv(c, sizes, s, m);
    HandOverLoad(c, n, d, t);
    HandOverStays(n, d, t);
    HandOverTaint(c, n, d, t);
  }

  lemma HarmlessSince(c: Config, s: Swarm, m: Move, a: nat, start: Node, earlier: Node)
    requires Harmless(c, s, m, a, start) && NoNewTaint(c, earlier, start)
    ensures Harmless(c, s, m, a, earlier)
  {
    hide Tainted, Fails;
  }

  /** One good move that leaves less to do. */
  lemma OneLess(c: Config, sizes: seq<int>, s: Swarm, a: nat) returns (m: Move)
    requires Trusted(c, sizes) && Good(c, s, a) && Load(c, s[a].ds) > 0
    ensures CanMove(c, s, m) && Good(c, After(c, s, m), a)
    ensures Harmless(c, s, m, a, s[a]) && NoNewTaint(c, s[a], After(c, s, m)[a])
    ensures Stays(s[a], After(c, s, m)[a]) && Load(c, After(c, s, m)[a].ds) < Load(c, s[a].ds)
  {
    assert Inv(c, s[a]);
    hide *;
    var d, t := FindWork(c, s[a]);
    if Works(c, s[a], d, t) {
      m := WorkIsGood(c, sizes, s, a, d, t);
    } else {
      m := HandOverIsGood(c, sizes, s, a, d, t);
    }
  }

  lemma StaysStill(n: Node, m: Node, o: Node)
    requires Stays(n, m) && Stays(m, o)
    ensures Stays(n, o)
  {
    hide Live, CancelledInside;
  }

  /** A first move, then a path. */
  lemma PrependPath(c: Config, s: Swarm, m: Move, states: seq<Swarm>, moves: seq<Move>)
    requires CanMove(c, s, m) && Path(c, states, moves) && states[0] == After(c, s, m)
    ensures Path(c, [s] + states, [m] + moves)
  {
    assert Leads(c, s, m, states[0]);
    hide Leads, CanMove, After;
    var longer, all := [s] + states, [m] + moves;
    forall k | 0 <= k < |all| ensures Leads(c, longer[k], all[k], longer[k + 1]) {
      if k > 0 { assert Leads(c, states[k - 1], moves[k - 1], states[k - 1 + 1]); }
    }
  }

  lemma PrependFaultFree(c: Config, s: Swarm, m: Move, states: seq<Swarm>, moves: seq<Move>, a: nat, start: Node, later: Node)
    requires Harmless(c, s, m, a, start) && FaultFree(c, states, moves, a, later) && NoNewTaint(c, start, later)
    ensures FaultFree(c, [s] + states, [m] + moves, a, start)
  {
    hide Harmless, NoNewTaint;
    var longer, all := [s] + states, [m] + moves;
    forall k | 0 <= k < |all| ensures Harmless(c, longer[k], all[k], a, start) {
      if k > 0 { HarmlessSince(c, states[k - 1], moves[k - 1], a, later, start); }
    }
  }

  lemma Prepend(c: Config, s: Swarm, m: Move, states: seq<Swarm>, moves: seq<Move>, a: nat)
    requires CanMove(c, s, m) && Path(c, states, moves) && states[0] == After(c, s, m) && a < |s|
    requires Harmless(c, s, m, a, s[a]) && FaultFree(c, states, moves, a, states[0][a]) && NoNewTaint(c, s[a], states[0][a])
    ensures Path(c, [s] + states, [m] + moves) && FaultFree(c, [s] + states, [m] + moves, a, s[a])
    ensures Last([s] + states) == Last(states)
  {
    PrependPath(c, s, m, states, moves);
    PrependFaultFree(c, s, m, states, moves, a, s[a], states[0][a]);
    hide Path, CanMove, Harmless, FaultFree, NoNewTaint;
  }

  lemma NoTaintSince(c: Config, n: Node, m: Node, o: Node)
    requires NoNewTaint(c, n, m) && NoNewTaint(c, m, o)
    ensures NoNewTaint(c, n, o)
  {
    hide Tainted;
  }

  /** From every reachable state of a node, at most `Load` moves bring all its goroutines to rest. */
  lemma {:induction false} Drain(c: Config, sizes: seq<int>, s: Swarm, a: nat)
    returns (states: seq<Swarm>, moves: seq<Move>)
    requires Trusted(c, sizes) && Good(c, s, a)
    ensures Path(c, states, moves) && states[0] == s && |moves| <= Load(c, s[a].ds)
    ensures FaultFree(c, states, moves, a, s[a]) && a < |Last(states)| && NoNewTaint(c, s[a], Last(states)[a])
    ensures Good(c, Last(states), a) && Stays(s[a], Last(states)[a]) && Load(c, Last(states)[a].ds) == 0
    decreases Load(c, s[a].ds)
  {
    if Load(c, s[a].ds) == 0 {
      states, moves := [s], [];
      hide SwarmInv, Load, Tainted;
    } else {
      assert a < |s|;
      hide Load, Good, CanMove, Stays, Last, FaultFree, Harmless, Trusted, NoNewTaint;
      var m := OneLess(c, sizes, s, a);
      var rest, more := Drain(c, sizes, After(c, s, m), a);
      Prepend(c, s, m, rest, more, a);
      states, moves := [s] + rest, [m] + more;
      NoTaintSince(c, s[a], After(c, s, m)[a], Last(rest)[a]);
      StaysStill(s[a], After(c, s, m)[a], Last(rest)[a]);
    }
  }
}
