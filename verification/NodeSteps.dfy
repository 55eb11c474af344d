/** What one step of a goroutine can change, in one place: used by every proof about runs. */
module NodeSteps {
  import opened ChunkWriting
  import opened Storing
  import opened Nodes
  import opened Options
  import opened NodeInvariants

  ghost predicate Steps(n: Node, d: nat, t: nat) {
    && Thread(n, d, t) && CanStep(n, d, t) && |n.status| == |n.cache| == |n.writes|
    && (Token(PcOf(n, d, t)).Some? ==> Token(PcOf(n, d, t)).value < |n.status|)
  }

  /** What only transfers change, and what never changes. */
  predicate Kept(n: Node, m: Node) {
    m.store == n.store && m.tally == n.tally && m.log == n.log && m.serveOnly == n.serveOnly
  }

  /** Thread (d, t) goes on to `to`; nothing is stored, and nobody hears of new chunks. */
  ghost predicate Moved(n: Node, m: Node, d: nat, t: nat, to: Pc) {
    && Thread(n, d, t) && Kept(n, m)
    && |m.ds| == |n.ds| && m.ds == n.ds[d := m.ds[d]]
    && m.ds[d].threads == n.ds[d].threads[t := to]
    && m.ds[d].kind == n.ds[d].kind && m.ds[d].known == n.ds[d].known && m.ds[d].valid == n.ds[d].valid
  }

  /** Where a step takes its goroutine. */
  function Target(c: Config, n: Node, d: nat, t: nat): Pc
    requires Thread(n, d, t)
    requires Token(PcOf(n, d, t)).Some? ==> Token(PcOf(n, d, t)).value < |n.status|
  {
    var dl := n.ds[d];
    match dl.threads[t]
    case CheckValid => if dl.valid then CheckCancel else Closing
    case CheckCancel => if n.cancelled then Closing else CheckReady
    case CheckReady => if SomeWorkerIsReady(dl) then Popping else CheckValid
    case Popping => if dl.queue == [] then CheckValid else Popped(dl.queue[0])
    case Popped(i) =>
      (match n.status[i] case Pending => Claiming(i) case Downloading => PushingBack(i) case Done => Adding(i))
    case Claiming(i) => if n.status[i].Pending? then Sending(i) else PushingBack(i)
    case Received(i) => Requesting(i)
    case Checked(i, _) => Publishing(i)
    case Publishing(i) => Adding(i)
    case Failing(i) => PushingBack(i)
    case PushingBack(i) => Home(t)
    case Adding(i) => Loading
    case Loading => if dl.numCompleted == |c.plan| then Cancelling else Home(t)
    case Cancelling => Completing
    case Completing => Home(t)
    case _ => Exited
  }

  /** What a step does to its downloader's queue and counter. */
  ghost predicate QueueStep(dl: Downloader, pc: Pc, dl': Downloader) {
    && dl'.queue == (match pc
                     case Popping => if dl.queue == [] then [] else dl.queue[1..]
                     case PushingBack(i) => dl.queue + [i]
                     case _ => dl.queue)
    && dl'.numCompleted == dl.numCompleted + if pc.Adding? then 1 else 0
  }

  lemma WithFacts(n: Node, d: nat, dl: Downloader)
    requires d < |n.ds|
    ensures var m := With(n, d, dl);
            && m.status == n.status && m.cache == n.cache && m.owner == n.owner
            && m.cancelled == n.cancelled && m.completed == n.completed
            && Kept(n, m)
  {
  }

  lemma JumpFacts(n: Node, d: nat, t: nat, pc: Pc)
    requires Thread(n, d, t)
    ensures var m := Jump(n, d, t, pc);
            && m.status == n.status && m.cache == n.cache && m.owner == n.owner
            && m.cancelled == n.cancelled && m.completed == n.completed
            && Kept(n, m)
  {
  }

  lemma JumpMoves(n: Node, d: nat, t: nat, pc: Pc, m: Node)
    requires Thread(n, d, t)
    requires var j := Jump(n, d, t, pc); m.ds == j.ds && Kept(j, m)
    ensures Moved(n, m, d, t, pc)
  {
  }

  lemma JumpQueue(n: Node, d: nat, t: nat, pc: Pc, m: Node)
    requires Thread(n, d, t) && m.ds == Jump(n, d, t, pc).ds
    requires !PcOf(n, d, t).PushingBack? && !PcOf(n, d, t).Adding? && (PcOf(n, d, t).Popping? ==> n.ds[d].queue == [])
    ensures d < |m.ds| && QueueStep(n.ds[d], PcOf(n, d, t), m.ds[d])
  {
  }

  lemma QueueMoves(n: Node, d: nat, t: nat, i: nat)
    requires Thread(n, d, t)
    ensures var m := With(n, d, PushBack(n.ds[d], t, i));
            Moved(n, m, d, t, Home(t)) && QueueStep(n.ds[d], PushingBack(i), m.ds[d])
    ensures var m := With(n, d, Count(n.ds[d], t, i));
            Moved(n, m, d, t, Loading) && QueueStep(n.ds[d], Adding(i), m.ds[d])
    ensures n.ds[d].queue != [] ==>
              var m := With(n, d, Pop(n.ds[d], t));
              Moved(n, m, d, t, Popped(n.ds[d].queue[0])) && QueueStep(n.ds[d], Popping, m.ds[d])
  {
  }

  /** What a step of one goroutine changes. */
  ghost predicate Goes(c: Config, n: Node, m: Node, d: nat, t: nat, to: Pc) {
    && Moved(n, m, d, t, to)
    && var pc := PcOf(n, d, t);
       && (if pc.Checked? then to == Publishing(pc.i) else if pc.Received? then to == Requesting(pc.i) else !InTransfer(to))
       && (if pc.Checked? && c.verify then pc.i < |n.cache| && m.cache == n.cache[pc.i := pc.expected] else m.cache == n.cache)
       && StatusStep(n.status, pc, m.status) && OwnerStep(n, pc, (d, t), m.owner)
       && QueueStep(n.ds[d], pc, m.ds[d])
       && m.cancelled == (n.cancelled || pc.Cancelling?) && m.completed == (n.completed || pc.Completing?)
  }

  /** Claiming takes ownership, publishing and failing give it up. */
  ghost predicate OwnerStep(n: Node, pc: Pc, me: (nat, nat), owner: map<nat, (nat, nat)>) {
    match pc
    case Claiming(i) => i < |n.status| && owner == if n.status[i].Pending? then n.owner[i := me] else n.owner
    case Publishing(i) => owner == n.owner - {i}
    case Failing(i) => owner == n.owner - {i}
    case _ => owner == n.owner
  }

  /** Claiming, publishing and failing store a status; no other step does. */
  ghost predicate StatusStep(st: seq<Status>, pc: Pc, st': seq<Status>) {
    match pc
    case Claiming(i) => i < |st| && st' == if st[i].Pending? then st[i := Downloading] else st
    case Publishing(i) => i < |st| && st' == st[i := Done]
    case Failing(i) => i < |st| && st' == st[i := Pending]
    case _ => st' == st
  }

  predicate Dispatching(pc: Pc) {
    InLoop(pc) || pc.Popped? || pc.Claiming?
  }

  lemma DispatchMoves(c: Config, n: Node, d: nat, t: nat)
    requires Steps(n, d, t) && Dispatching(PcOf(n, d, t))
    ensures Goes(c, n, DoStep(c, n, d, t), d, t, Target(c, n, d, t))
  {
    hide Jump, With, Pop, Moved, QueueStep, SomeWorkerIsReady;
    var dl, m, to := n.ds[d], DoStep(c, n, d, t), Target(c, n, d, t);
    if PcOf(n, d, t).Popping? && dl.queue != [] {
      WithFacts(n, d, Pop(dl, t));
      QueueMoves(n, d, t, 0);
    } else {
      JumpFacts(n, d, t, to);
      JumpMoves(n, d, t, to, m);
      JumpQueue(n, d, t, to, m);
    }
  }

  lemma WorkMoves(c: Config, n: Node, d: nat, t: nat)
    requires Steps(n, d, t) && !Dispatching(PcOf(n, d, t))
    ensures Goes(c, n, DoStep(c, n, d, t), d, t, Target(c, n, d, t))
  {
    hide Jump, With, PushBack, Count, Moved, QueueStep, AllWorkersExited;
    var dl, m, pc, to := n.ds[d], DoStep(c, n, d, t), PcOf(n, d, t), Target(c, n, d, t);
    if pc.PushingBack? || pc.Adding? {
      WithFacts(n, d, PushBack(dl, t, pc.i));
      WithFacts(n, d, Count(dl, t, pc.i));
      QueueMoves(n, d, t, pc.i);
    } else {
      JumpFacts(n, d, t, to);
      JumpMoves(n, d, t, to, m);
      JumpQueue(n, d, t, to, m);
    }
  }

  lemma StepMoves(c: Config, n: Node, d: nat, t: nat) returns (to: Pc)
    requires Steps(n, d, t)
    ensures to == Target(c, n, d, t) && Goes(c, n, DoStep(c, n, d, t), d, t, to)
  {
    to := Target(c, n, d, t);
    hide Goes, DoStep, Dispatching, Target;
    if Dispatching(PcOf(n, d, t)) { DispatchMoves(c, n, d, t); } else { WorkMoves(c, n, d, t); }
  }

  /** A chunk becomes Done when its owner publishes it, and stays Done. */
  lemma StepDone(n: Node, status: seq<Status>, pc: Pc, i: nat)
    requires StatusStep(n.status, pc, status) && i < |n.status|
    requires Claim(pc) == Some(i) ==> n.status[i].Downloading?
    ensures IsDone(status, i) <==> IsDone(n.status, i) || pc == Publishing(i)
  {
  }

  lemma CanStepFacts(c: Config, n: Node, d: nat, t: nat)
    requires Inv(c, n) && Enabled(c, n, Step(d, t))
    ensures Steps(n, d, t)
    ensures var pc := PcOf(n, d, t); !pc.Sending? && !pc.Requesting? && !pc.Writing?
    ensures forall i: nat | Claim(PcOf(n, d, t)) == Some(i) :: i < |n.status| && n.status[i].Downloading?
  {
    hide Inv, AllWorkersExited;
    assert var pc := PcOf(n, d, t); !pc.Sending? && !pc.Requesting? && !pc.Writing?;
    hide CanStep;
    ThreadFacts(c, n, d, t);
    if Claim(PcOf(n, d, t)).Some? { ClaimFacts(c, n, d, t, Claim(PcOf(n, d, t)).value); }
  }

  // The steps of a transfer ------------------------------------------------------------

  predicate OfTransfer(a: Action) {
    a.Reply? || a.Receive? || a.EndRange? || a.CheckSum? || a.Fail?
  }

  /** Where a step of a transfer takes its worker. */
  ghost function TransferTarget(c: Config, n: Node, a: Action): Pc
    requires OfTransfer(a) && Enabled(c, n, a)
  {
    var pc := PcOf(n, a.d, a.t);
    match a
    case Reply(_, _, expected) => Writing(pc.i, 0, [], expected)
    case Receive(_, _, data) => Writing(pc.i, pc.k, pc.got + data, pc.expected)
    case EndRange(_, _) => Writing(pc.i, pc.k + 1, pc.got, pc.expected)
    case CheckSum(_, _) => Verdict(c, pc)
    case Fail(_, _) => Failing(pc.i)
  }

  lemma TransferMoves(c: Config, n: Node, a: Action)
    requires Shape(c, n) && OfTransfer(a) && Enabled(c, n, a)
    ensures Thread(n, a.d, a.t) && Thread(Next(c, n, a), a.d, a.t)
    ensures var m := Next(c, n, a);
            && m.status == n.status && m.owner == n.owner && |m.ds| == |n.ds| && m.ds == n.ds[a.d := m.ds[a.d]]
            && m.ds[a.d].threads == n.ds[a.d].threads[a.t := TransferTarget(c, n, a)]
            && m.ds[a.d] == n.ds[a.d].(threads := m.ds[a.d].threads)
            && m.serveOnly == n.serveOnly && m.cancelled == n.cancelled && m.completed == n.completed
            && m.log == n.log + if a.EndRange? then [(PcOf(n, a.d, a.t).i, PcOf(n, a.d, a.t).k)] else []
  {
    hide Next, TransferTarget, Enabled;
    TransferJumps(c, n, a);
    hide Shape;
    JumpFacts(n, a.d, a.t, TransferTarget(c, n, a));
  }

  lemma TransferJumps(c: Config, n: Node, a: Action)
    requires Shape(c, n) && OfTransfer(a) && Enabled(c, n, a)
    ensures Thread(n, a.d, a.t)
    ensures var m, j := Next(c, n, a), Jump(n, a.d, a.t, TransferTarget(c, n, a));
            && m.(store := j.store, tally := j.tally, log := j.log) == j
            && m.log == n.log + if a.EndRange? then [(PcOf(n, a.d, a.t).i, PcOf(n, a.d, a.t).k)] else []
  {
    if a.Receive? { BoundWithin(c, PcOf(n, a.d, a.t).i, PcOf(n, a.d, a.t).k + 1); }
    hide Shape, Bound, Addrs, Put, Verdict, FinishRange;
  }
}
