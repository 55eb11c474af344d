/** One node while it downloads: the dispatcher and the workers of every downloader as a small-step
    machine (src/downloader.go:190-324). Each step is one atomic operation of one goroutine. */
module Nodes {
  import opened Names
  import opened Options
  import opened Planning
  import opened Plans
  import opened Storing
  import opened ChunkWriting

  datatype Status = Pending | Downloading | Done

  /** Where a downloader fetches from: the node's own source, or another node. */
  datatype Kind = Local | Peer(host: nat)

  /** What is fixed for a run: the plan, the source's bytes, and whether transfers are verified. */
  datatype Config = Config(plan: seq<Chunk>, source: Store, verify: bool, hash: seq<byte> -> nat)

  /** What a goroutine is about to do. Thread 0 of a downloader dispatches, the others are workers. */
  datatype Pc =
    // the dispatcher's loop
    | CheckValid | CheckCancel | CheckReady | Popping
    | Popped(i: nat) | Claiming(i: nat) | Sending(i: nat)
    | Closing
    // a worker
    | Waiting | Received(i: nat)
    | Requesting(i: nat) | Writing(i: nat, k: nat, got: seq<byte>, expected: nat)
    | Checked(i: nat, expected: nat) | Publishing(i: nat) | Failing(i: nat)
    // both
    | PushingBack(i: nat)
    | Adding(i: nat) | Loading | Cancelling | Completing
    | Exited

  /** The chunk whose queue entry the goroutine has in hand. */
  function Token(pc: Pc): Option<nat> {
    match pc
    case Popped(i) => Some(i)
    case Claiming(i) => Some(i)
    case Sending(i) => Some(i)
    case Received(i) => Some(i)
    case Requesting(i) => Some(i)
    case Writing(i, _, _, _) => Some(i)
    case Checked(i, _) => Some(i)
    case Publishing(i) => Some(i)
    case Failing(i) => Some(i)
    case PushingBack(i) => Some(i)
    case Adding(i) => Some(i)
    case _ => None
  }

  /** The chunk that the goroutine has claimed and not yet released. */
  function Claim(pc: Pc): Option<nat> {
    match pc
    case Sending(i) => Some(i)
    case Received(i) => Some(i)
    case Requesting(i) => Some(i)
    case Writing(i, _, _, _) => Some(i)
    case Checked(i, _) => Some(i)
    case Publishing(i) => Some(i)
    case Failing(i) => Some(i)
    case _ => None
  }

  predicate ForDispatcher(pc: Pc) {
    match pc
    case Waiting => false
    case Received(_) => false
    case Requesting(_) => false
    case Writing(_, _, _, _) => false
    case Checked(_, _) => false
    case Publishing(_) => false
    case Failing(_) => false
    case _ => true
  }

  predicate ForWorker(pc: Pc) {
    match pc
    case Waiting => true
    case Received(_) => true
    case Requesting(_) => true
    case Writing(_, _, _, _) => true
    case Checked(_, _) => true
    case Publishing(_) => true
    case Failing(_) => true
    case PushingBack(_) => true
    case Adding(_) => true
    case Loading => true
    case Cancelling => true
    case Completing => true
    case Exited => true
    case _ => false
  }

  /** `held` and `counted` are history variables: which thread has which queue entry in hand, and
      which entries were counted. No step depends on them. */
  datatype Downloader = Downloader(kind: Kind, threads: seq<Pc>, queue: seq<nat>, known: set<nat>, valid: bool,
                                   numCompleted: nat, held: map<nat, nat>, counted: set<nat>)

  /** `owner`, `writes` and `log` are history variables: which thread has claimed which chunk, how often
      each chunk was completed, and which ranges were written, in order. No step depends on them. */
  datatype Node = Node(serveOnly: bool, status: seq<Status>, cache: seq<nat>, store: Store, tally: Tally,
                       cancelled: bool, completed: bool, ds: seq<Downloader>,
                       owner: map<nat, (nat, nat)>, writes: seq<nat>, log: seq<(nat, nat)>)

  datatype Action =
    | Spawn(kind: Kind, queue: seq<nat>, workers: nat)
    | Invalidate(d: nat)
    | Cancel
    | Poll(d: nat, list: seq<nat>)
    | FillCache(i: nat, value: nat)
    | HandOver(d: nat, t: nat)
    | Reply(d: nat, t: nat, expected: nat)
    | Receive(d: nat, t: nat, data: seq<byte>)
    | EndRange(d: nat, t: nat)
    | CheckSum(d: nat, t: nat)
    | Fail(d: nat, t: nat)
    | Step(d: nat, t: nat)

  predicate Thread(n: Node, d: nat, t: nat) {
    d < |n.ds| && t < |n.ds[d].threads|
  }

  function PcOf(n: Node, d: nat, t: nat): Pc
    requires Thread(n, d, t)
  {
    n.ds[d].threads[t]
  }

  function Home(t: nat): Pc {
    if t == 0 then CheckValid else Waiting
  }

  function Goto(dl: Downloader, t: nat, pc: Pc): Downloader
    requires t < |dl.threads|
  {
    dl.(threads := dl.threads[t := pc])
  }

  function With(n: Node, d: nat, dl: Downloader): Node
    requires d < |n.ds|
  {
    n.(ds := n.ds[d := dl])
  }

  function Jump(n: Node, d: nat, t: nat, pc: Pc): Node
    requires Thread(n, d, t)
  {
    With(n, d, Goto(n.ds[d], t, pc))
  }

  /** The first `k` ranges of chunk `i` have this many bytes. */
  function Bound(c: Config, i: nat, k: nat): nat
    requires i < |c.plan| && k <= |c.plan[i]|
  {
    |ChunkAddrs(c.plan[i][..k])|
  }

  lemma BoundWithin(c: Config, i: nat, k: nat)
    requires i < |c.plan| && k <= |c.plan[i]|
    ensures Bound(c, i, k) <= |Addrs(c, i)|
    ensures k < |c.plan[i]| ==> Bound(c, i, k) + |RangeAddrs(c.plan[i][k])| == Bound(c, i, k + 1)
    ensures k == |c.plan[i]| ==> Bound(c, i, k) == |Addrs(c, i)|
  {
    hide RangeAddrs;
    if k < |c.plan[i]| {
      NextRange(c.plan[i], k);
    } else {
      assert c.plan[i][..k] == c.plan[i];
    }
  }

  function Addrs(c: Config, i: nat): seq<Addr>
    requires i < |c.plan|
  {
    ChunkAddrs(c.plan[i])
  }

  // What every reachable node satisfies ---------------------------------------

  ghost predicate PcFits(c: Config, pc: Pc) {
    && (Token(pc).Some? ==> Token(pc).value < |c.plan|)
    && (pc.Writing? ==>
          && pc.k <= |c.plan[pc.i]| && Bound(c, pc.i, pc.k) <= |pc.got| <= |Addrs(c, pc.i)|
          && (pc.k < |c.plan[pc.i]| ==> |pc.got| <= Bound(c, pc.i, pc.k + 1))
          && (pc.k == |c.plan[pc.i]| ==> |pc.got| == |Addrs(c, pc.i)|))
  }

  ghost predicate DownloaderFits(c: Config, dl: Downloader) {
    && |dl.threads| >= 2
    && (forall t | 0 <= t < |dl.threads| ::
          PcFits(c, dl.threads[t]) && if t == 0 then ForDispatcher(dl.threads[t]) else ForWorker(dl.threads[t]))
    && (forall t | 0 < t < |dl.threads| :: dl.threads[t].Exited? ==> dl.threads[0].Closing? || dl.threads[0].Exited?)
    && (forall t | 0 < t < |dl.threads| :: dl.threads[0].Exited? ==> dl.threads[t].Exited?)
    && (forall i | i in dl.known :: i < |c.plan|)
  }

  ghost predicate Shape(c: Config, n: Node) {
    && |n.status| == |n.cache| == |n.writes| == |c.plan|
    && forall d | 0 <= d < |n.ds| :: DownloaderFits(c, n.ds[d])
  }

  /** Every known index is in exactly one place: in the queue, in one goroutine's hand, or counted. */
  ghost predicate TokensOf(dl: Downloader) {
    && NoDuplicates(dl.queue)
    && (forall i :: i in dl.known <==> i in dl.queue || i in dl.held || i in dl.counted)
    && (forall i :: !(i in dl.queue && i in dl.held) && !(i in dl.queue && i in dl.counted))
    && (forall i :: !(i in dl.held && i in dl.counted))
    && (forall i | i in dl.held :: dl.held[i] < |dl.threads| && Token(dl.threads[dl.held[i]]) == Some(i))
    && (forall t | 0 <= t < |dl.threads| && Token(dl.threads[t]).Some? ::
          Token(dl.threads[t]).value in dl.held && dl.held[Token(dl.threads[t]).value] == t)
    && dl.numCompleted == |dl.counted|
  }

  ghost predicate Tokens(n: Node) {
    forall d | 0 <= d < |n.ds| :: TokensOf(n.ds[d])
  }

  /** A chunk is Downloading exactly while one goroutine has claimed it. */
  ghost predicate Owners(n: Node) {
    ClaimsAreOwned(n) && OwnersHaveClaims(n) && (forall i | 0 <= i < |n.status| && n.status[i].Downloading? :: i in n.owner)
  }

  ghost predicate ClaimsAreOwned(n: Node) {
    forall d: nat, t: nat | Thread(n, d, t) && Claim(PcOf(n, d, t)).Some? ::
      Claim(PcOf(n, d, t)).value in n.owner && n.owner[Claim(PcOf(n, d, t)).value] == (d, t)
  }

  ghost predicate OwnersHaveClaims(n: Node) {
    forall i | i in n.owner ::
      && i < |n.status| && n.status[i].Downloading?
      && Thread(n, n.owner[i].0, n.owner[i].1) && Claim(PcOf(n, n.owner[i].0, n.owner[i].1)) == Some(i)
  }

  predicate InCompleteOne(pc: Pc) {
    pc.Loading? || pc.Cancelling? || pc.Completing?
  }

  predicate IsDone(status: seq<Status>, i: nat) {
    i < |status| && status[i].Done?
  }

  /** Counted chunks are Done; a call of `CompleteOne` goes past its test only at the full count; and at
      the full count either the node is completed or some call is still on its way to say so. */
  ghost predicate CountsOf(c: Config, status: seq<Status>, cancelled: bool, completed: bool, dl: Downloader) {
    && (forall i | i in dl.counted :: IsDone(status, i))
    && (forall t | 0 <= t < |dl.threads| ::
          && (dl.threads[t].Adding? ==> IsDone(status, dl.threads[t].i))
          && (dl.threads[t].Cancelling? || dl.threads[t].Completing? ==> dl.numCompleted == |c.plan|)
          && (dl.threads[t].Completing? ==> cancelled))
    && (dl.numCompleted == |c.plan| && !completed ==>
          exists t :: 0 <= t < |dl.threads| && InCompleteOne(dl.threads[t]))
  }

  ghost predicate Counts(c: Config, n: Node) {
    && (forall d | 0 <= d < |n.ds| :: CountsOf(c, n.status, n.cancelled, n.completed, n.ds[d]))
    && (n.completed && !n.serveOnly ==> n.cancelled && forall i | 0 <= i < |n.status| :: n.status[i].Done?)
    && (forall i | 0 <= i < |n.status| && i < |n.writes| :: n.writes[i] == if n.status[i].Done? then 1 else 0)
  }

  ghost predicate Inv(c: Config, n: Node) {
    Shape(c, n) && Tokens(n) && Owners(n) && Counts(c, n)
  }

  // The steps -----------------------------------------------------------------

  /** The ready counter is positive: a worker counts itself before it receives, and stops counting
      itself only after it has received. */
  predicate SomeWorkerIsReady(dl: Downloader) {
    exists t :: 0 < t < |dl.threads| && (dl.threads[t].Waiting? || dl.threads[t].Received?)
  }

  predicate AllWorkersExited(dl: Downloader) {
    forall t | 0 < t < |dl.threads| :: dl.threads[t].Exited?
  }

  function FirstPc(c: Config): Pc {
    if |c.plan| == 0 then Cancelling else CheckValid
  }

  predicate IsListOfAll(queue: seq<nat>, n: nat) {
    (forall j, k | 0 <= j < k < |queue| :: queue[j] != queue[k]) &&
    |queue| == n && (forall k | 0 <= k < |queue| :: queue[k] < n) && (forall i | 0 <= i < n :: i in queue)
  }

  ghost predicate Enabled(c: Config, n: Node, a: Action) {
    match a
    case Spawn(kind, queue, workers) =>
      !n.serveOnly && workers >= 1 && (if kind.Local? then IsListOfAll(queue, |c.plan|) else queue == [])
    case Invalidate(d) => d < |n.ds|
    case Cancel => true
    case Poll(d, list) =>
      && d < |n.ds| && n.ds[d].kind.Peer? && n.ds[d].valid
      && NoDuplicates(list) && (forall i | i in list :: i < |c.plan| && i !in n.ds[d].known)
    case FillCache(i, value) => i < |n.cache|
    case HandOver(d, t) => Thread(n, d, t) && t > 0 && PcOf(n, d, 0).Sending? && PcOf(n, d, t).Waiting?
    case Reply(d, t, expected) => Thread(n, d, t) && PcOf(n, d, t).Requesting?
    case Receive(d, t, data) =>
      && Thread(n, d, t) && PcOf(n, d, t).Writing? && data != []
      && var w := PcOf(n, d, t);
         w.i < |c.plan| && w.k < |c.plan[w.i]| && |w.got| + |data| <= Bound(c, w.i, w.k + 1)
    case EndRange(d, t) =>
      && Thread(n, d, t) && PcOf(n, d, t).Writing?
      && var w := PcOf(n, d, t);
         w.i < |c.plan| && w.k < |c.plan[w.i]| && |w.got| == Bound(c, w.i, w.k + 1)
    case CheckSum(d, t) =>
      && Thread(n, d, t) && PcOf(n, d, t).Writing?
      && var w := PcOf(n, d, t); w.i < |c.plan| && w.k == |c.plan[w.i]|
    case Fail(d, t) => Thread(n, d, t) && CanFail(c, PcOf(n, d, t))
    case Step(d, t) => Thread(n, d, t) && CanStep(n, d, t)
  }

  /** A request can fail, and so can the write of any range. */
  predicate CanFail(c: Config, pc: Pc) {
    pc.Requesting? || (pc.Writing? && pc.i < |c.plan| && pc.k < |c.plan[pc.i]|)
  }

  predicate CanStep(n: Node, d: nat, t: nat)
    requires Thread(n, d, t)
  {
    match PcOf(n, d, t)
    case Sending(_) => false
    case Closing => AllWorkersExited(n.ds[d])
    case Waiting => PcOf(n, d, 0).Closing? || PcOf(n, d, 0).Exited?
    case Requesting(_) => false
    case Writing(_, _, _, _) => false
    case Exited => false
    case _ => true
  }

  ghost function Next(c: Config, n: Node, a: Action): Node
    requires Shape(c, n) && Enabled(c, n, a)
  {
    match a
    case Spawn(kind, queue, workers) => DoSpawn(c, n, kind, queue, workers)
    case Invalidate(d) => With(n, d, n.ds[d].(valid := false))
    case Cancel => n.(cancelled := true)
    case Poll(d, list) => With(n, d, n.ds[d].(queue := n.ds[d].queue + list, known := n.ds[d].known + Elements(list)))
    case FillCache(i, value) => n.(cache := n.cache[i := value])
    case HandOver(d, t) => DoHandOver(n, d, t)
    case Reply(d, t, expected) => Jump(n, d, t, Writing(PcOf(n, d, t).i, 0, [], expected))
    case Receive(d, t, data) =>
      BoundWithin(c, PcOf(n, d, t).i, PcOf(n, d, t).k + 1); DoReceive(c, n, d, t, data)
    case EndRange(d, t) => DoEndRange(c, n, d, t)
    case CheckSum(d, t) => Jump(n, d, t, Verdict(c, PcOf(n, d, t)))
    case Fail(d, t) => Jump(n, d, t, Failing(PcOf(n, d, t).i))
    case Step(d, t) => DoStep(c, n, d, t)
  }

  function Verdict(c: Config, w: Pc): Pc
    requires w.Writing?
  {
    if Accepted(c.hash, w.expected, w.got) then Checked(w.i, w.expected) else Failing(w.i)
  }

  function DoSpawn(c: Config, n: Node, kind: Kind, queue: seq<nat>, workers: nat): Node {
    var threads := [FirstPc(c)] + seq(workers, _ => Waiting);
    n.(ds := n.ds + [Downloader(kind, threads, queue, Elements(queue), true, 0, map[], {})])
  }

  /** The unbuffered channel: the dispatcher's send and a worker's receive are one step. */
  function DoHandOver(n: Node, d: nat, t: nat): Node
    requires Thread(n, d, 0) && Thread(n, d, t) && PcOf(n, d, 0).Sending?
  {
    var i, dl := PcOf(n, d, 0).i, n.ds[d];
    With(n, d, Goto(Goto(dl, 0, CheckValid), t, Received(i)).(held := dl.held[i := t])).(owner := n.owner[i := (d, t)])
  }

  /** Some more bytes of the current range arrive and are stored. */
  function DoReceive(c: Config, n: Node, d: nat, t: nat, data: seq<byte>): Node
    requires Thread(n, d, t) && PcOf(n, d, t).Writing? && PcOf(n, d, t).i < |c.plan|
    requires |PcOf(n, d, t).got| + |data| <= |Addrs(c, PcOf(n, d, t).i)|
  {
    var w := PcOf(n, d, t);
    var at := Addrs(c, w.i)[|w.got|..|w.got| + |data|];
    Jump(n, d, t, Writing(w.i, w.k, w.got + data, w.expected)).(store := Put(n.store, at, data))
  }

  /** A range is complete: count it for its file. */
  function DoEndRange(c: Config, n: Node, d: nat, t: nat): Node
    requires Thread(n, d, t) && PcOf(n, d, t).Writing? && PcOf(n, d, t).i < |c.plan|
    requires PcOf(n, d, t).k < |c.plan[PcOf(n, d, t).i]|
  {
    var w := PcOf(n, d, t);
    Jump(n, d, t, Writing(w.i, w.k + 1, w.got, w.expected))
      .(tally := FinishRange(n.tally, c.plan[w.i][w.k].fileIndex), log := n.log + [(w.i, w.k)])
  }

  function DoStep(c: Config, n: Node, d: nat, t: nat): Node
    requires Thread(n, d, t) && CanStep(n, d, t)
    requires Token(PcOf(n, d, t)).Some? ==>
               Token(PcOf(n, d, t)).value < |n.status| && |n.status| == |n.cache| == |n.writes|
  {
    var dl := n.ds[d];
    match dl.threads[t]
    case CheckValid => Jump(n, d, t, if dl.valid then CheckCancel else Closing)
    case CheckCancel => Jump(n, d, t, if n.cancelled then Closing else CheckReady)
    case CheckReady => Jump(n, d, t, if SomeWorkerIsReady(dl) then Popping else CheckValid)
    case Popping =>
      if dl.queue == [] then Jump(n, d, t, CheckValid) else With(n, d, Pop(dl, t))
    case Popped(i) =>
      Jump(n, d, t, match n.status[i] case Pending => Claiming(i) case Downloading => PushingBack(i) case Done => Adding(i))
    case Claiming(i) =>
      if n.status[i].Pending? then
        Jump(n, d, t, Sending(i)).(status := n.status[i := Downloading], owner := n.owner[i := (d, t)])
      else Jump(n, d, t, PushingBack(i))
    case Closing => Jump(n, d, t, Exited)
    case Waiting => Jump(n, d, t, Exited)
    case Received(i) => Jump(n, d, t, Requesting(i))
    case Checked(i, expected) =>
      Jump(n, d, t, Publishing(i)).(cache := if c.verify then n.cache[i := expected] else n.cache)
    case Publishing(i) =>
      Jump(n, d, t, Adding(i))
        .(status := n.status[i := Done], owner := n.owner - {i}, writes := n.writes[i := n.writes[i] + 1])
    case Failing(i) =>
      Jump(n, d, t, PushingBack(i)).(status := n.status[i := Pending], owner := n.owner - {i})
    case PushingBack(i) => With(n, d, PushBack(dl, t, i))
    case Adding(i) => With(n, d, Count(dl, t, i))
    case Loading => Jump(n, d, t, if dl.numCompleted == |c.plan| then Cancelling else Home(t))
    case Cancelling => Jump(n, d, t, Completing).(cancelled := true)
    case Completing => Jump(n, d, t, Home(t)).(completed := true)
  }

  function Pop(dl: Downloader, t: nat): Downloader
    requires t < |dl.threads| && dl.queue != []
  {
    Goto(dl, t, Popped(dl.queue[0])).(queue := dl.queue[1..], held := dl.held[dl.queue[0] := t])
  }

  function PushBack(dl: Downloader, t: nat, i: nat): Downloader
    requires t < |dl.threads|
  {
    Goto(dl, t, Home(t)).(queue := dl.queue + [i], held := dl.held - {i})
  }

  function Count(dl: Downloader, t: nat, i: nat): Downloader
    requires t < |dl.threads|
  {
    Goto(dl, t, Loading).(numCompleted := dl.numCompleted + 1, held := dl.held - {i}, counted := dl.counted + {i})
  }
}
