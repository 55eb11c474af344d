/** How much work is left: a weight for every position of a goroutine, and sums over goroutines and
    queues. It orders the steps from popping a queue entry to counting it. */
module Weights {
  import opened Nodes
  import opened NodeInvariants
  import opened NodeSteps

  /** The steps of a transfer: bytes to receive and ranges to end. */
  function Cost(c: Config, i: nat): nat {
    if i < |c.plan| then |Addrs(c, i)| + |c.plan[i]| else 0
  }

  function Left(c: Config, i: nat, k: nat, n: nat): nat {
    if i < |c.plan| && k <= |c.plan[i]| && n <= |Addrs(c, i)| then |Addrs(c, i)| - n + |c.plan[i]| - k else 0
  }

  function QueueEntry(c: Config, i: nat): nat {
    13 + Cost(c, i)
  }

  /** The work left for a goroutine; with `back`, including that of an entry it will put back. */
  function Weight(c: Config, pc: Pc, back: bool): nat {
    match pc
    case Popped(i) => 12 + Cost(c, i)
    case Claiming(i) => 11 + Cost(c, i)
    case Sending(i) => 10 + Cost(c, i)
    case Received(i) => 9 + Cost(c, i)
    case Requesting(i) => 8 + Cost(c, i)
    case Writing(i, k, got, _) => 7 + Left(c, i, k, |got|)
    case Checked(_, _) => 6
    case Publishing(_) => 5
    case Adding(_) => 4
    case Loading => 3
    case Cancelling => 2
    case Completing => 1
    case Failing(i) => 2 + if back then QueueEntry(c, i) else 0
    case PushingBack(i) => 1 + if back then QueueEntry(c, i) else 0
    case _ => 0
  }

  predicate Idle(pc: Pc) {
    InLoop(pc) || pc.Closing? || pc.Waiting? || pc.Exited?
  }

  function LoadOf(c: Config, threads: seq<Pc>, back: bool): nat {
    if threads == [] then 0
    else LoadOf(c, threads[..|threads| - 1], back) + Weight(c, threads[|threads| - 1], back)
  }

  function Load(c: Config, ds: seq<Downloader>): nat {
    if ds == [] then 0 else Load(c, ds[..|ds| - 1]) + LoadOf(c, ds[|ds| - 1].threads, false)
  }

  function QueueLoad(c: Config, queue: seq<nat>): nat {
    if queue == [] then 0 else QueueLoad(c, queue[..|queue| - 1]) + QueueEntry(c, queue[|queue| - 1])
  }

  /** All the work left for one downloader. */
  function Rest(c: Config, dl: Downloader): nat {
    LoadOf(c, dl.threads, true) + QueueLoad(c, dl.queue)
  }

  lemma {:induction false} LoadOfUpdate(c: Config, threads: seq<Pc>, t: nat, pc: Pc, back: bool)
    requires t < |threads|
    ensures LoadOf(c, threads[t := pc], back) + Weight(c, threads[t], back)
         == LoadOf(c, threads, back) + Weight(c, pc, back)
  {
    hide Weight;
    var n := |threads| - 1;
    if t < n {
      LoadOfUpdate(c, threads[..n], t, pc, back);
      assert threads[t := pc][..n] == threads[..n][t := pc];
    } else {
      assert threads[t := pc][..n] == threads[..n];
    }
  }

  lemma {:induction false} LoadUpdate(c: Config, ds: seq<Downloader>, d: nat, dl: Downloader)
    requires d < |ds|
    ensures Load(c, ds[d := dl]) + LoadOf(c, ds[d].threads, false) == Load(c, ds) + LoadOf(c, dl.threads, false)
  {
    hide LoadOf;
    var n := |ds| - 1;
    if d < n {
      LoadUpdate(c, ds[..n], d, dl);
      assert ds[d := dl][..n] == ds[..n][d := dl];
    } else {
      assert ds[d := dl][..n] == ds[..n];
    }
  }

  lemma {:induction false} BusyThread(c: Config, threads: seq<Pc>) returns (t: nat)
    requires LoadOf(c, threads, false) > 0
    ensures t < |threads| && Weight(c, threads[t], false) > 0
  {
    hide Weight;
    var n := |threads| - 1;
    if Weight(c, threads[n], false) > 0 { t := n; } else { t := BusyThread(c, threads[..n]); }
  }

  lemma {:induction false} BusyDownloader(c: Config, ds: seq<Downloader>) returns (d: nat)
    requires Load(c, ds) > 0
    ensures d < |ds| && LoadOf(c, ds[d].threads, false) > 0
  {
    hide LoadOf;
    var n := |ds| - 1;
    if LoadOf(c, ds[n].threads, false) > 0 { d := n; } else { d := BusyDownloader(c, ds[..n]); }
  }

  lemma {:induction false} NoLoad(c: Config, threads: seq<Pc>, back: bool)
    ensures (forall t | 0 <= t < |threads| :: Idle(threads[t])) <==> LoadOf(c, threads, back) == 0
  {
    hide Cost;
    if threads != [] {
      NoLoad(c, threads[..|threads| - 1], back);
      assert forall t | 0 <= t < |threads| - 1 :: threads[..|threads| - 1][t] == threads[t];
    }
  }

  lemma {:induction false} NoLoads(c: Config, ds: seq<Downloader>, d: nat)
    requires Load(c, ds) == 0 && d < |ds|
    ensures LoadOf(c, ds[d].threads, false) == 0
  {
    if d < |ds| - 1 { NoLoads(c, ds[..|ds| - 1], d); }
  }

  lemma {:induction false} QueueLoadAppend(c: Config, queue: seq<nat>, more: seq<nat>)
    ensures QueueLoad(c, queue + more) == QueueLoad(c, queue) + QueueLoad(c, more)
  {
    if more == [] {
      assert queue + more == queue;
    } else {
      var n := |more| - 1;
      QueueLoadAppend(c, queue, more[..n]);
      assert (queue + more)[..|queue| + n] == queue + more[..n];
    }
  }

  lemma QueueLoadHead(c: Config, queue: seq<nat>)
    requires queue != []
    ensures QueueLoad(c, queue) == QueueEntry(c, queue[0]) + QueueLoad(c, queue[1..])
  {
    assert queue == [queue[0]] + queue[1..];
    QueueLoadAppend(c, [queue[0]], queue[1..]);
    assert [queue[0]][..0] == [];
    assert QueueLoad(c, [queue[0]]) == QueueLoad(c, []) + QueueEntry(c, queue[0]);
  }

  // What each step does to the work left --------------------------------------------

  /** A goroutine finds its chunk taken by another one. */
  ghost predicate Conflict(n: Node, pc: Pc) {
    match pc
    case Popped(i) => i < |n.status| && n.status[i].Downloading?
    case Claiming(i) => i < |n.status| && !n.status[i].Pending?
    case _ => false
  }

  lemma StepLowersWeight(c: Config, n: Node, d: nat, t: nat)
    requires Steps(n, d, t) && !Idle(PcOf(n, d, t))
    ensures Weight(c, Target(c, n, d, t), false) < Weight(c, PcOf(n, d, t), false)
  {
    hide Cost;
  }

  /** Without a conflict each step of a goroutine at work leaves less to do, queue entries included. */
  lemma StepLowersRest(c: Config, n: Node, m: Node, d: nat, t: nat)
    requires Steps(n, d, t) && !Conflict(n, PcOf(n, d, t))
    requires !Idle(PcOf(n, d, t)) || (PcOf(n, d, t).Popping? && n.ds[d].queue != [])
    requires d < |m.ds| && m.ds[d].threads == n.ds[d].threads[t := Target(c, n, d, t)]
    requires QueueStep(n.ds[d], PcOf(n, d, t), m.ds[d])
    ensures Rest(c, m.ds[d]) < Rest(c, n.ds[d])
  {
    var dl, dl', pc, to := n.ds[d], m.ds[d], PcOf(n, d, t), Target(c, n, d, t);
    StepMovesQueue(c, dl, pc, dl');
    StepMovesWeight(c, n, d, t);
    hide Cost, LoadOf, QueueLoad, QueueStep, Target, Weight, Conflict, Steps, QueueEntry;
    LoadOfUpdate(c, dl.threads, t, to, true);
  }

  /** What the queue loses or gains by a step. */
  lemma StepMovesQueue(c: Config, dl: Downloader, pc: Pc, dl': Downloader)
    requires QueueStep(dl, pc, dl')
    ensures pc.Popping? && dl.queue != [] ==> QueueLoad(c, dl'.queue) + QueueEntry(c, dl.queue[0]) == QueueLoad(c, dl.queue)
    ensures pc.PushingBack? ==> QueueLoad(c, dl'.queue) == QueueLoad(c, dl.queue) + QueueEntry(c, pc.i)
    ensures !pc.Popping? && !pc.PushingBack? ==> dl'.queue == dl.queue
  {
    hide QueueEntry;
    if pc.Popping? && dl.queue != [] { QueueLoadHead(c, dl.queue); }
    if pc.PushingBack? { QueueLoadAppend(c, dl.queue, [pc.i]); assert [pc.i][..0] == []; }
    hide QueueLoad;
  }

  lemma StepMovesWeight(c: Config, n: Node, d: nat, t: nat)
    requires Steps(n, d, t) && !Conflict(n, PcOf(n, d, t))
    requires !Idle(PcOf(n, d, t)) || (PcOf(n, d, t).Popping? && n.ds[d].queue != [])
    ensures var pc, to := PcOf(n, d, t), Target(c, n, d, t);
            && (pc.Popping? ==> Weight(c, to, true) < Weight(c, pc, true) + QueueEntry(c, n.ds[d].queue[0]))
            && (pc.PushingBack? ==> Weight(c, to, true) + QueueEntry(c, pc.i) < Weight(c, pc, true))
            && (!pc.Popping? && !pc.PushingBack? ==> Weight(c, to, true) < Weight(c, pc, true))
  {
    hide Cost, AllWorkersExited, SomeWorkerIsReady;
  }
}
