/** Two runs of one node: the callback of a file comes too early, and a chunk is claimed for which there is
    no worker. */
module Scenarios {
  import opened Names
  import opened Planning
  import opened Plans
  import opened Storing
  import opened ChunkWriting
  import opened Nodes
  import opened Swarms
  import opened SwarmSafety
  import opened SwarmResults
  import opened Callbacks

  // Two files of 3 bytes and 1 byte, in chunks of 2 bytes: chunk 1 holds the end of file 0 and all of file 1.
  const HEAD := FileRange(0, 0, 2)
  const TAIL := FileRange(0, 2, 3)
  const SMALL := FileRange(1, 0, 1)
  const PLAN: seq<Chunk> := [[HEAD], [TAIL, SMALL]]
  const SIZES: seq<int> := [3, 1]

  lemma Addresses()
    ensures ChunkAddrs(PLAN[0]) == [Addr(0, 0), Addr(0, 1)]
    ensures ChunkAddrs(PLAN[1]) == [Addr(0, 2), Addr(1, 0)]
    ensures ChunkAddrs(PLAN[1][..1]) == [Addr(0, 2)]
    ensures PlanAddrs(PLAN) == FileAddrs(SIZES, 2)
  {
    assert PLAN[0][1..] == [] && PLAN[1][1..] == [SMALL] && [SMALL][1..] == [] && PLAN[1][..1] == [TAIL] && [TAIL][1..] == [];
    assert ChunkAddrs([SMALL]) == RangeAddrs(SMALL) + ChunkAddrs([]);
    assert PLAN[1..] == [PLAN[1]] && [PLAN[1]][1..] == [];
    assert PlanAddrs([PLAN[1]]) == ChunkAddrs(PLAN[1]) + PlanAddrs([]);
    assert FileAddrs(SIZES, 1) == FileAddrs(SIZES, 0) + Span(0, 0, 3);
  }

  /** The plan is the one that `BuildChunks` makes of these files, without a cap on files per chunk. */
  lemma PlanIsGreedy()
    ensures GreedyPlan(SIZES, 2, 0, PLAN) && Tiling(SIZES, 0, PLAN)
  {
    Addresses();
    hide ChunkAddrs, PlanAddrs, FileAddrs;
  }

  lemma Counters()
    ensures RangeCount(PLAN, 0) == 2 && RangeCount(PLAN, 1) == 1
  {
    assert PLAN[0][1..] == [] && PLAN[1][1..] == [SMALL] && [SMALL][1..] == [];
    assert PLAN[1..] == [PLAN[1]] && [PLAN[1]][1..] == [];
    assert Mentions([SMALL], 0) == 0 && Mentions([SMALL], 1) == 1;
    assert Mentions(PLAN[1], 0) == 1 && Mentions(PLAN[1], 1) == 1;
    assert Mentions(PLAN[0], 0) == 1 && Mentions(PLAN[0], 1) == 0;
    assert RangeCount([PLAN[1]], 0) == 1 && RangeCount([PLAN[1]], 1) == 1;
  }

  ghost predicate Setting(c: Config) {
    c.plan == PLAN && !c.verify
  }

  lemma SettingIsTrusted(c: Config)
    requires Setting(c)
    ensures Trusted(c, SIZES)
  {
    PlanIsGreedy();
    hide GreedyPlan, Tiling, Trusted;
    PlansAreTrusted(c, SIZES, 0);
  }

  // One node with one worker ------------------------------------------------------------------------

  /** What the node has stored and counted. */
  datatype Books = Books(store: Store, tally: Tally, log: seq<(nat, nat)>)

  /** The node with its dispatcher at `pc`, its worker at `work`, and chunk `i` (if any) in hand. */
  ghost function One(pc: Pc, work: Pc, queue: seq<nat>, status: seq<Status>, held: map<nat, nat>,
                     owner: map<nat, (nat, nat)>, b: Books): Node {
    Node(false, status, [0, 0], b.store, b.tally, false, false,
         [Downloader(Local, [pc, work], queue, {0, 1}, true, 0, held, {})], owner, [0, 0], b.log)
  }

  ghost function Resting(queue: seq<nat>, b: Books): Node {
    One(CheckValid, Waiting, queue, [Pending, Pending], map[], map[], b)
  }

  /** The worker is at `work` with chunk `i`. */
  ghost function Working(work: Pc, i: nat, queue: seq<nat>, b: Books): Node
    requires i < 2
  {
    One(CheckValid, work, queue, [Pending, Pending][i := Downloading], map[i := 1], map[i := (0, 1)], b)
  }

  /** The same node, its one downloader and two goroutines compared one by one. */
  ghost predicate Is(n: Node, m: Node) {
    && n.(ds := m.ds) == m && |n.ds| == |m.ds| == 1 && n.ds[0].(threads := m.ds[0].threads) == m.ds[0]
    && |n.ds[0].threads| == |m.ds[0].threads| == 2
    && n.ds[0].threads[0] == m.ds[0].threads[0] && n.ds[0].threads[1] == m.ds[0].threads[1]
  }

  lemma Same(n: Node, m: Node)
    requires Is(n, m)
    ensures n == m
  {
    assert n.ds[0].threads == m.ds[0].threads;
    assert n.ds == m.ds;
  }

  ghost predicate Reaches(c: Config, states: seq<Swarm>, moves: seq<Move>, n: Node) {
    Setting(c) && Run(c, states, moves) && Last(states) == [n]
  }

  lemma ReachedShape(c: Config, states: seq<Swarm>, moves: seq<Move>, n: Node)
    requires Reaches(c, states, moves, n)
    ensures Shape(c, n)
  {
    SettingIsTrusted(c);
    hide Trusted, Run, Setting;
    RunHolds(c, SIZES, states, moves, |states| - 1);
    assert Inv(c, [n][0]);
  }

  lemma CanGo(c: Config, n: Node, a: Action, m: Node)
    requires Shape(c, n) && Enabled(c, n, a) && Allowed(c, [n], 0, a) && Is(Next(c, n, a), m)
    ensures CanMove(c, [n], Move(0, a)) && After(c, [n], Move(0, a)) == [m]
  {
    Same(Next(c, n, a), m);
    hide Shape, Enabled, Next, Allowed, Is;
    assert [n][0 := m] == [m];
  }

  /** The node takes one more step. */
  lemma Go(c: Config, states: seq<Swarm>, moves: seq<Move>, n: Node, a: Action, m: Node)
    returns (states': seq<Swarm>, moves': seq<Move>)
    requires Reaches(c, states, moves, n) && Enabled(c, n, a) && (Shape(c, n) ==> Allowed(c, [n], 0, a))
    requires Shape(c, n) ==> Is(Next(c, n, a), m)
    ensures Reaches(c, states', moves', m)
  {
    ReachedShape(c, states, moves, n);
    CanGo(c, n, a, m);
    hide Setting, Run, CanMove, After, Enabled, Next, Allowed, Shape, Is;
    RunGoesOn(c, states, moves, Move(0, a));
    states', moves' := states + [[m]], moves + [Move(0, a)];
  }

  lemma GoStep(c: Config, states: seq<Swarm>, moves: seq<Move>, n: Node, t: nat, m: Node)
    returns (states': seq<Swarm>, moves': seq<Move>)
    requires Reaches(c, states, moves, n) && Thread(n, 0, t) && CanStep(n, 0, t) && |n.status| == |n.cache| == |n.writes|
    requires Token(PcOf(n, 0, t)).Some? ==> Token(PcOf(n, 0, t)).value < |n.status|
    requires Is(DoStep(c, n, 0, t), m)
    ensures Reaches(c, states', moves', m)
  {
    hide Reaches, DoStep, CanStep, Is;
    states', moves' := Go(c, states, moves, n, Step(0, t), m);
  }

  /** The dispatcher takes the head of the queue. */
  lemma Takes(c: Config, states: seq<Swarm>, moves: seq<Move>, i: nat, rest: seq<nat>, b: Books)
    returns (s: seq<Swarm>, m: seq<Move>)
    requires i < 2 && Reaches(c, states, moves, Resting([i] + rest, b))
    ensures Reaches(c, s, m, One(Popped(i), Waiting, rest, [Pending, Pending], map[i := 0], map[], b))
  {
    hide Reaches;
    var queue, both := [i] + rest, [Pending, Pending];
    s, m := GoStep(c, states, moves, Resting(queue, b), 0, One(CheckCancel, Waiting, queue, both, map[], map[], b));
    s, m := GoStep(c, s, m, One(CheckCancel, Waiting, queue, both, map[], map[], b), 0,
                   One(CheckReady, Waiting, queue, both, map[], map[], b));
    s, m := Sees(c, s, m, queue, b);
    assert queue[1..] == rest && queue[0] == i;
    s, m := GoStep(c, s, m, One(Popping, Waiting, queue, both, map[], map[], b), 0,
                   One(Popped(i), Waiting, rest, both, map[i := 0], map[], b));
  }

  lemma Sees(c: Config, states: seq<Swarm>, moves: seq<Move>, queue: seq<nat>, b: Books)
    returns (s: seq<Swarm>, m: seq<Move>)
    requires Reaches(c, states, moves, One(CheckReady, Waiting, queue, [Pending, Pending], map[], map[], b))
    ensures Reaches(c, s, m, One(Popping, Waiting, queue, [Pending, Pending], map[], map[], b))
  {
    hide Reaches;
    var n := One(CheckReady, Waiting, queue, [Pending, Pending], map[], map[], b);
    assert n.ds[0].threads[1].Waiting? && SomeWorkerIsReady(n.ds[0]);
    s, m := GoStep(c, states, moves, n, 0, One(Popping, Waiting, queue, [Pending, Pending], map[], map[], b));
  }

  /** The dispatcher claims the chunk. */
  lemma Claims(c: Config, states: seq<Swarm>, moves: seq<Move>, i: nat, rest: seq<nat>, b: Books)
    returns (s: seq<Swarm>, m: seq<Move>)
    requires i < 2 && Reaches(c, states, moves, One(Popped(i), Waiting, rest, [Pending, Pending], map[i := 0], map[], b))
    ensures Reaches(c, s, m, One(Sending(i), Waiting, rest, [Pending, Pending][i := Downloading], map[i := 0], map[i := (0, 0)], b))
  {
    hide Reaches;
    var both := [Pending, Pending];
    s, m := GoStep(c, states, moves, One(Popped(i), Waiting, rest, both, map[i := 0], map[], b), 0,
                   One(Claiming(i), Waiting, rest, both, map[i := 0], map[], b));
    s, m := GoStep(c, s, m, One(Claiming(i), Waiting, rest, both, map[i := 0], map[], b), 0,
                   One(Sending(i), Waiting, rest, both[i := Downloading], map[i := 0], map[i := (0, 0)], b));
  }

  /** ... and hands it over to the worker. */
  lemma Gives(c: Config, states: seq<Swarm>, moves: seq<Move>, i: nat, rest: seq<nat>, b: Books)
    returns (s: seq<Swarm>, m: seq<Move>)
    requires i < 2
    requires Reaches(c, states, moves,
                     One(Sending(i), Waiting, rest, [Pending, Pending][i := Downloading], map[i := 0], map[i := (0, 0)], b))
    ensures Reaches(c, s, m, Working(Requesting(i), i, rest, b))
  {
    hide Reaches;
    s, m := IsGiven(c, states, moves, i, rest, b);
    s, m := GoStep(c, s, m, Working(Received(i), i, rest, b), 1, Working(Requesting(i), i, rest, b));
  }

  lemma IsGiven(c: Config, states: seq<Swarm>, moves: seq<Move>, i: nat, rest: seq<nat>, b: Books)
    returns (s: seq<Swarm>, m: seq<Move>)
    requires i < 2
    requires Reaches(c, states, moves,
                     One(Sending(i), Waiting, rest, [Pending, Pending][i := Downloading], map[i := 0], map[i := (0, 0)], b))
    ensures Reaches(c, s, m, Working(Received(i), i, rest, b))
  {
    hide Reaches;
    var n := One(Sending(i), Waiting, rest, [Pending, Pending][i := Downloading], map[i := 0], map[i := (0, 0)], b);
    assert map[i := 0][i := 1] == map[i := 1] && map[i := (0, 0)][i := (0, 1)] == map[i := (0, 1)];
    s, m := Go(c, states, moves, n, HandOver(0, 1), Working(Received(i), i, rest, b));
  }

  lemma Assigns(c: Config, states: seq<Swarm>, moves: seq<Move>, i: nat, rest: seq<nat>, b: Books)
    returns (s: seq<Swarm>, m: seq<Move>)
    requires i < 2 && Reaches(c, states, moves, Resting([i] + rest, b))
    ensures Reaches(c, s, m, Working(Requesting(i), i, rest, b))
  {
    hide *;
    s, m := Takes(c, states, moves, i, rest, b);
    s, m := Claims(c, s, m, i, rest, b);
    s, m := Gives(c, s, m, i, rest, b);
  }

  /** A failed attempt is put back. */
  lemma PutsBack(c: Config, states: seq<Swarm>, moves: seq<Move>, i: nat, rest: seq<nat>, b: Books)
    returns (s: seq<Swarm>, m: seq<Move>)
    requires i < 2 && Reaches(c, states, moves, Working(Failing(i), i, rest, b))
    ensures Reaches(c, s, m, Resting(rest + [i], b))
  {
    hide Reaches;
    s, m := LetsGo(c, states, moves, i, rest, b);
    assert map[i := 1] - {i} == map[];
    s, m := GoStep(c, s, m, One(CheckValid, PushingBack(i), rest, [Pending, Pending], map[i := 1], map[], b), 1,
                   Resting(rest + [i], b));
  }

  lemma LetsGo(c: Config, states: seq<Swarm>, moves: seq<Move>, i: nat, rest: seq<nat>, b: Books)
    returns (s: seq<Swarm>, m: seq<Move>)
    requires i < 2 && Reaches(c, states, moves, Working(Failing(i), i, rest, b))
    ensures Reaches(c, s, m, One(CheckValid, PushingBack(i), rest, [Pending, Pending], map[i := 1], map[], b))
  {
    hide Reaches;
    var both := [Pending, Pending];
    assert both[i := Downloading][i := Pending] == both;
    assert map[i := (0, 1)] - {i} == map[];
    s, m := GoStep(c, states, moves, Working(Failing(i), i, rest, b), 1,
                   One(CheckValid, PushingBack(i), rest, both, map[i := 1], map[], b));
  }

  /** The books after the first range of chunk 1 has arrived. */
  ghost function FirstRange(c: Config, b: Books): Books
    requires Setting(c)
  {
    Addresses();
    Books(Put(b.store, [Addr(0, 2)], SourceBytes(c, 1)[..1]), FinishRange(b.tally, 0), b.log + [(1, 0)])
  }

  lemma BoundsOfFirst(c: Config)
    requires Setting(c)
    ensures |c.plan| == 2 && |c.plan[1]| == 2 && |Addrs(c, 1)| == 2 && Addrs(c, 1)[0..1] == [Addr(0, 2)]
    ensures Bound(c, 1, 1) == 1 && |SourceBytes(c, 1)| == 2 && c.plan[1][0].fileIndex == 0
  {
    Addresses();
    hide ChunkAddrs;
  }

  /** The worker receives the byte of chunk 1's first range and ends the range. */
  lemma GetsFirstRange(c: Config, states: seq<Swarm>, moves: seq<Move>, rest: seq<nat>, b: Books)
    returns (s: seq<Swarm>, m: seq<Move>)
    requires Reaches(c, states, moves, Working(Requesting(1), 1, rest, b))
    ensures Setting(c)
    ensures Reaches(c, s, m, Working(Writing(1, 1, SourceBytes(c, 1)[..1], 0), 1, rest, FirstRange(c, b)))
  {
    assert Setting(c);
    BoundsOfFirst(c);
    hide Reaches, Setting, Bound, Addrs, Put, FirstRange, SourceBytes;
    var data := SourceBytes(c, 1)[..1];
    s, m := Go(c, states, moves, Working(Requesting(1), 1, rest, b), Reply(0, 1, 0), Working(Writing(1, 0, [], 0), 1, rest, b));
    hide *;
    s, m := ReceivesByte(c, s, m, rest, b, data);
    s, m := EndsFirst(c, s, m, rest, b, data);
  }

  lemma EndsFirst(c: Config, states: seq<Swarm>, moves: seq<Move>, rest: seq<nat>, b: Books, data: seq<byte>)
    returns (s: seq<Swarm>, m: seq<Move>)
    requires Setting(c) && |SourceBytes(c, 1)| == 2 && data == SourceBytes(c, 1)[..1]
    requires Reaches(c, states, moves, Working(Writing(1, 0, data, 0), 1, rest, b.(store := Put(b.store, [Addr(0, 2)], data))))
    ensures Reaches(c, s, m, Working(Writing(1, 1, data, 0), 1, rest, FirstRange(c, b)))
  {
    BoundsOfFirst(c);
    hide Reaches, Setting, Bound, Addrs, Put, FinishRange, SourceBytes;
    var stored := b.(store := Put(b.store, [Addr(0, 2)], data));
    s, m := Go(c, states, moves, Working(Writing(1, 0, data, 0), 1, rest, stored), EndRange(0, 1),
               Working(Writing(1, 1, data, 0), 1, rest, FirstRange(c, b)));
  }

  lemma ReceivesByte(c: Config, states: seq<Swarm>, moves: seq<Move>, rest: seq<nat>, b: Books, data: seq<byte>)
    returns (s: seq<Swarm>, m: seq<Move>)
    requires Setting(c) && |c.plan| == 2 && |SourceBytes(c, 1)| == 2 && data == SourceBytes(c, 1)[..1]
    requires Reaches(c, states, moves, Working(Writing(1, 0, [], 0), 1, rest, b))
    ensures Reaches(c, s, m, Working(Writing(1, 0, data, 0), 1, rest, b.(store := Put(b.store, [Addr(0, 2)], data))))
  {
    BoundsOfFirst(c);
    hide Reaches, Setting, Bound, Addrs, Put, SourceBytes;
    var stored := b.(store := Put(b.store, [Addr(0, 2)], data));
    assert [] + data == data;
    s, m := Go(c, states, moves, Working(Writing(1, 0, [], 0), 1, rest, b), Receive(0, 1, data),
               Working(Writing(1, 0, data, 0), 1, rest, stored));
  }

  /** The attempt breaks off, and the chunk goes back to the end of the queue. */
  lemma BreaksOff(c: Config, states: seq<Swarm>, moves: seq<Move>, work: Pc, i: nat, rest: seq<nat>, b: Books)
    returns (s: seq<Swarm>, m: seq<Move>)
    requires i < 2 && CanFail(c, work) && work.i == i && Reaches(c, states, moves, Working(work, i, rest, b))
    ensures Reaches(c, s, m, Resting(rest + [i], b))
  {
    hide Reaches;
    s, m := Go(c, states, moves, Working(work, i, rest, b), Fail(0, 1), Working(Failing(i), i, rest, b));
    s, m := PutsBack(c, s, m, i, rest, b);
  }

  ghost function Empty(disk: Store): Books {
    Books(disk, Tally([2, 1], []), [])
  }

  lemma SpawnsLocal(c: Config, disk: Store) returns (s: seq<Swarm>, m: seq<Move>)
    requires Setting(c)
    ensures Reaches(c, s, m, Resting([1, 0], Empty(disk)))
  {
    var n := Node(false, [Pending, Pending], [0, 0], disk, Tally([2, 1], []), false, false, [], map[], [0, 0], []);
    Counters();
    hide RangeCount;
    assert Fresh(c, n) && Start(c, [n]) && Reaches(c, [[n]], [], n);
    hide Reaches, Fresh, Start;
    var queue: seq<nat> := [1, 0];
    assert queue[0] == 1 && queue[1] == 0 && IsListOfAll(queue, 2) && Elements(queue) == {0, 1};
    s, m := Go(c, [[n]], [], n, Spawn(Local, queue, 1), Resting(queue, Empty(disk)));
  }

  /** The first attempt on chunk 1 finishes the range of file 0 and breaks off; then an attempt on chunk 0
      fails before its first byte. */
  lemma TwoFailures(c: Config, disk: Store) returns (s: seq<Swarm>, m: seq<Move>)
    requires Setting(c)
    ensures Reaches(c, s, m, Resting([1, 0], FirstRange(c, Empty(disk))))
  {
    var b := Empty(disk);
    var b' := FirstRange(c, b);
    assert CanFail(c, Writing(1, 1, SourceBytes(c, 1)[..1], 0)) by { BoundsOfFirst(c); }
    hide Reaches, Setting, FirstRange, SourceBytes, CanFail;
    s, m := SpawnsLocal(c, disk);
    assert [1] + [0] == [1, 0] && [0] + [1] == [0, 1];
    s, m := Assigns(c, s, m, 1, [0], b);
    s, m := GetsFirstRange(c, s, m, [0], b);
    s, m := BreaksOff(c, s, m, Writing(1, 1, SourceBytes(c, 1)[..1], 0), 1, [0], b');
    s, m := Assigns(c, s, m, 0, [1], b');
    assert CanFail(c, Requesting(0)) by { RequestCanFail(c); }
    s, m := BreaksOff(c, s, m, Requesting(0), 0, [1], b');
  }

  lemma RequestCanFail(c: Config)
    ensures CanFail(c, Requesting(0))
  {
  }

  lemma Doubled(c: Config, disk: Store)
    requires Setting(c)
    ensures var b := FirstRange(c, FirstRange(c, Empty(disk)));
            b.tally.completed == [0] && b.log == [(1, 0), (1, 0)] && !AllFinished(c.plan, b.log, 0)
  {
    assert FinishRange(Tally([2, 1], []), 0) == Tally([1, 1], []);
    assert FinishRange(Tally([1, 1], []), 0) == Tally([0, 1], [0]);
    assert IsRangeOf(PLAN, 0, (0, 0));
    hide Put, SourceBytes;
  }

  /** The counter goes wrong when an attempt fails after finishing a range. In this run of the machine, on
      a plan that `BuildChunks` makes, chunk 1 is tried twice; both tries finish the last range of file 0,
      and the callback of file 0 runs although chunk 0, with the file's first bytes, is still Pending. */
  lemma CallbackCanBeEarly(c: Config, disk: Store) returns (states: seq<Swarm>, moves: seq<Move>)
    requires Setting(c)
    ensures GreedyPlan(SIZES, 2, 0, c.plan) && Trusted(c, SIZES)
    ensures Run(c, states, moves) && |Last(states)| == 1
    ensures var n := Last(states)[0];
            && 0 in n.tally.completed && !AllFinished(c.plan, n.log, 0)
            && n.status == [Pending, Downloading] && !n.cancelled && !n.completed
  {
    PlanIsGreedy();
    SettingIsTrusted(c);
    Doubled(c, disk);
    var b := FirstRange(c, Empty(disk));
    var work := Writing(1, 1, SourceBytes(c, 1)[..1], 0);
    assert [1] + [0] == [1, 0];
    hide GreedyPlan, Trusted, AllFinished, FirstRange, SourceBytes, Run;
    states, moves := TwoFailures(c, disk);
    states, moves := Assigns(c, states, moves, 1, [0], b);
    states, moves := GetsFirstRange(c, states, moves, [0], b);
  }

  // A chunk without a worker --------------------------------------------------------------------------

  /** The worker has received chunk 1, the dispatcher is about to do something about chunk 0. */
  ghost function Second(pc: Pc, queue: seq<nat>, status: seq<Status>, held: map<nat, nat>, owner: map<nat, (nat, nat)>,
                        b: Books): Node {
    One(pc, Received(1), queue, status, held, owner, b)
  }

  /** The worker has not yet subtracted itself from the ready counter: the dispatcher goes on. */
  lemma LooksTooEarly(c: Config, states: seq<Swarm>, moves: seq<Move>, b: Books) returns (s: seq<Swarm>, m: seq<Move>)
    requires Reaches(c, states, moves, Working(Received(1), 1, [0], b))
    ensures Reaches(c, s, m, Second(Popping, [0], [Pending, Downloading], map[1 := 1], map[1 := (0, 1)], b))
  {
    hide Reaches;
    var held: map<nat, nat>, owner: map<nat, (nat, nat)> := map[1 := 1], map[1 := (0, 1)];
    var status := [Pending, Downloading];
    assert [Pending, Pending][1 := Downloading] == status;
    s, m := GoStep(c, states, moves, Second(CheckValid, [0], status, held, owner, b), 0,
                   Second(CheckCancel, [0], status, held, owner, b));
    s, m := GoStep(c, s, m, Second(CheckCancel, [0], status, held, owner, b), 0,
                   Second(CheckReady, [0], status, held, owner, b));
    var n := Second(CheckReady, [0], status, held, owner, b);
    assert n.ds[0].threads[1].Received? && SomeWorkerIsReady(n.ds[0]);
    s, m := GoStep(c, s, m, n, 0, Second(Popping, [0], status, held, owner, b));
  }

  lemma TakesSecond(c: Config, states: seq<Swarm>, moves: seq<Move>, b: Books) returns (s: seq<Swarm>, m: seq<Move>)
    requires Reaches(c, states, moves, Second(Popping, [0], [Pending, Downloading], map[1 := 1], map[1 := (0, 1)], b))
    ensures Reaches(c, s, m, Second(Claiming(0), [], [Pending, Downloading], map[1 := 1, 0 := 0], map[1 := (0, 1)], b))
  {
    hide Reaches;
    var owner: map<nat, (nat, nat)> := map[1 := (0, 1)];
    var status, queue, none: seq<nat> := [Pending, Downloading], [0], [];
    assert queue[1..] == none && queue[0] == 0 && map[1 := 1][0 := 0] == map[1 := 1, 0 := 0];
    s, m := GoStep(c, states, moves, Second(Popping, queue, status, map[1 := 1], owner, b), 0,
                   Second(Popped(0), none, status, map[1 := 1, 0 := 0], owner, b));
    s, m := GoStep(c, s, m, Second(Popped(0), none, status, map[1 := 1, 0 := 0], owner, b), 0,
                   Second(Claiming(0), none, status, map[1 := 1, 0 := 0], owner, b));
  }

  lemma ClaimsSecond(c: Config, states: seq<Swarm>, moves: seq<Move>, b: Books) returns (s: seq<Swarm>, m: seq<Move>)
    requires Reaches(c, states, moves, Second(Claiming(0), [], [Pending, Downloading], map[1 := 1, 0 := 0], map[1 := (0, 1)], b))
    ensures Reaches(c, s, m, One(Sending(0), Requesting(1), [], [Downloading, Downloading], map[1 := 1, 0 := 0],
                                 map[1 := (0, 1), 0 := (0, 0)], b))
  {
    hide Reaches;
    var held: map<nat, nat>, owner: map<nat, (nat, nat)> := map[1 := 1, 0 := 0], map[1 := (0, 1), 0 := (0, 0)];
    var both := [Downloading, Downloading];
    assert [Pending, Downloading][0 := Downloading] == both && map[1 := (0, 1)][0 := (0, 0)] == owner;
    s, m := GoStep(c, states, moves, Second(Claiming(0), [], [Pending, Downloading], held, map[1 := (0, 1)], b), 0,
                   Second(Sending(0), [], both, held, owner, b));
    s, m := GoStep(c, s, m, Second(Sending(0), [], both, held, owner, b), 1,
                   One(Sending(0), Requesting(1), [], both, held, owner, b));
  }

  /** A chunk can be claimed although no worker is free: the ready counter is read between a worker's
      receive and its subtraction. Here the only worker requests chunk 1 while the dispatcher, blocked in
      its send, keeps chunk 0 from every other downloader of the node. */
  lemma ClaimCanWaitForAWorker(c: Config, disk: Store) returns (states: seq<Swarm>, moves: seq<Move>)
    requires Setting(c)
    ensures Run(c, states, moves) && |Last(states)| == 1
    ensures var n := Last(states)[0];
            && |n.ds| == 1 && n.ds[0].threads == [Sending(0), Requesting(1)] && n.status == [Downloading, Downloading]
            && !n.cancelled && n.ds[0].valid
  {
    var b := Empty(disk);
    assert [1] + [0] == [1, 0];
    hide Run, Setting;
    states, moves := SpawnsLocal(c, disk);
    states, moves := Takes(c, states, moves, 1, [0], b);
    states, moves := Claims(c, states, moves, 1, [0], b);
    states, moves := IsGiven(c, states, moves, 1, [0], b);
    states, moves := LooksTooEarly(c, states, moves, b);
    states, moves := TakesSecond(c, states, moves, b);
    states, moves := ClaimsSecond(c, states, moves, b);
  }
}
