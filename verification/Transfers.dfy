/** A transfer in the node machine does what `WriteChunk` does, whatever the other goroutines do
    meanwhile: to the bytes of its own chunk, and to the ranges that it counts. */
module Transfers {
  import opened Names
  import opened Planning
  import opened Plans
  import opened Storing
  import opened ChunkWriting
  import opened Nodes
  import opened NodeInvariants
  import opened NodeSteps
  import opened Swarms
  import opened SwarmSafety
  import opened SwarmResults
  import opened Callbacks

  // What a transfer leaves behind --------------------------------------------------------------------

  /** The finished ranges of chunk `i`, in order. */
  function Own(log: seq<(nat, nat)>, i: nat): seq<(nat, nat)> {
    if log == [] then []
    else Own(log[..|log| - 1], i) + if log[|log| - 1].0 == i then [log[|log| - 1]] else []
  }

  function FirstRanges(i: nat, k: nat): seq<(nat, nat)> {
    if k == 0 then [] else FirstRanges(i, k - 1) + [(i, k - 1)]
  }

  /** The counters after the logged ranges. */
  function FinishLog(c: Config, t: Tally, log: seq<(nat, nat)>): Tally {
    if log == [] then t
    else
      var e, before := log[|log| - 1], FinishLog(c, t, log[..|log| - 1]);
      if e.0 < |c.plan| && e.1 < |c.plan[e.0]| then FinishRange(before, c.plan[e.0][e.1].fileIndex) else before
  }

  /** Counting the first `k` ranges of a chunk is what `WriteChunk` does after filling them. */
  lemma {:induction false} OwnRangesAreCounted(c: Config, t: Tally, i: nat, k: nat)
    requires i < |c.plan| && k <= |c.plan[i]|
    ensures FinishLog(c, t, FirstRanges(i, k)) == FinishRanges(t, c.plan[i][..k])
  {
    if k > 0 {
      OwnRangesAreCounted(c, t, i, k - 1);
      assert FirstRanges(i, k)[..|FirstRanges(i, k)| - 1] == FirstRanges(i, k - 1);
      assert c.plan[i][..k][..k - 1] == c.plan[i][..k - 1];
      hide FinishRange;
    }
  }

  /** What goroutine (d, t) has achieved for chunk `i` since the node was `from`: the chunk's bytes are as
      if only it had written, and it has counted its first `w.k` ranges, once each and in order. */
  ghost predicate Achieved(c: Config, from: Node, n: Node, w: Pc) {
    && w.Writing? && w.i < |c.plan| && |w.got| <= |Addrs(c, w.i)|
    && Content(n.store, Addrs(c, w.i)) == Content(Put(from.store, Addrs(c, w.i)[..|w.got|], w.got), Addrs(c, w.i))
    && Logged(c, from, n, w.i, w.k)
  }

  ghost predicate Logged(c: Config, from: Node, n: Node, i: nat, k: nat) {
    && from.log <= n.log && Own(n.log[|from.log|..], i) == FirstRanges(i, k)
    && n.tally == FinishLog(c, from.tally, n.log[|from.log|..])
  }

  // Bytes ----------------------------------------------------------------------------------------------

  lemma {:induction false} PutAgrees(s: Store, r: Store, at: seq<Addr>, data: seq<byte>, x: Addr)
    requires |at| == |data| && At(s, x) == At(r, x)
    ensures At(Put(s, at, data), x) == At(Put(r, at, data), x)
  {
    if at != [] {
      PutAgrees(s, r, at[..|at| - 1], data[..|at| - 1], x);
    }
  }

  lemma ContentAgrees(s: Store, r: Store, at: seq<Addr>, data: seq<byte>, all: seq<Addr>)
    requires |at| == |data| && Content(s, all) == Content(r, all)
    ensures Content(Put(s, at, data), all) == Content(Put(r, at, data), all)
  {
    forall k | 0 <= k < |all| ensures Content(Put(s, at, data), all)[k] == Content(Put(r, at, data), all)[k] {
      assert Content(s, all)[k] == Content(r, all)[k];
      PutAgrees(s, r, at, data, all[k]);
    }
  }

  lemma MoreStored(store: Store, at: seq<Addr>, got: seq<byte>, data: seq<byte>)
    requires |got| + |data| <= |at|
    ensures Put(Put(store, at[..|got|], got), at[|got|..|got| + |data|], data)
         == Put(store, at[..|got| + |data|], got + data)
  {
    hide Put;
    PutAppend(store, at[..|got|], got, at[|got|..|got| + |data|], data);
    assert at[..|got| + |data|] == at[..|got|] + at[|got|..|got| + |data|];
  }

  lemma OwnBytes(c: Config, from: Node, n: Node, m: Node, w: Pc, data: seq<byte>)
    requires Achieved(c, from, n, w) && Room(c, w, data)
    requires m.store == Stored(c, n.store, w, data) && m.log == n.log && m.tally == n.tally
    ensures Achieved(c, from, m, Writing(w.i, w.k, w.got + data, w.expected))
  {
    hide Put, Addrs, Logged;
    var all := Addrs(c, w.i);
    MoreStored(from.store, all, w.got, data);
    ContentAgrees(n.store, Put(from.store, all[..|w.got|], w.got), all[|w.got|..|w.got| + |data|], data, all);
    assert Logged(c, from, m, w.i, w.k) by { SameLog(c, from, n, m, w.i, w.k); }
    hide Content;
  }

  lemma SameLog(c: Config, from: Node, n: Node, m: Node, i: nat, k: nat)
    requires Logged(c, from, n, i, k) && m.log == n.log && m.tally == n.tally
    ensures Logged(c, from, m, i, k)
  {
  }

  lemma OtherBytes(c: Config, sizes: seq<int>, from: Node, n: Node, m: Node, w: Pc, other: Pc, data: seq<byte>)
    requires Partition(sizes, c.plan) && Achieved(c, from, n, w) && Room(c, other, data) && other.i != w.i
    requires m.store == Stored(c, n.store, other, data) && m.log == n.log && m.tally == n.tally
    ensures Achieved(c, from, m, w)
  {
    hide Partition, Put, Addrs, Logged;
    var all := Addrs(c, w.i);
    assert all[..|all|] == all;
    OtherChunk(c, sizes, n.store, other.i, w.i, |other.got|, data, |all|);
    SameLog(c, from, n, m, w.i, w.k);
    hide Content;
  }

  // Counting -----------------------------------------------------------------------------------------

  lemma LogsOne(c: Config, from: Node, n: Node, m: Node, i: nat, k: nat, e: (nat, nat))
    requires Logged(c, from, n, i, k) && m.log == n.log + [e] && e.0 < |c.plan| && e.1 < |c.plan[e.0]|
    requires m.tally == FinishRange(n.tally, c.plan[e.0][e.1].fileIndex) && (e.0 == i ==> e.1 == k)
    ensures Logged(c, from, m, i, if e.0 == i then k + 1 else k)
  {
    var log, more := n.log[|from.log|..], m.log[|from.log|..];
    assert more == log + [e] && more[..|more| - 1] == log;
    hide FinishRange;
  }

  lemma EndsRange(c: Config, from: Node, n: Node, m: Node, w: Pc, e: (nat, nat))
    requires Achieved(c, from, n, w) && m.store == n.store && m.log == n.log + [e]
    requires e.0 < |c.plan| && e.1 < |c.plan[e.0]| && (e.0 == w.i ==> e.1 == w.k)
    requires m.tally == FinishRange(n.tally, c.plan[e.0][e.1].fileIndex)
    ensures Achieved(c, from, m, if e.0 == w.i then Writing(w.i, w.k + 1, w.got, w.expected) else w)
  {
    hide Content, Put, Addrs, Logged, FinishRange;
    LogsOne(c, from, n, m, w.i, w.k, e);
  }

  // Every step ---------------------------------------------------------------------------------------

  lemma NextKeepsStore(c: Config, n: Node, a: Action)
    requires Inv(c, n) && Enabled(c, n, a) && !a.Receive?
    ensures Next(c, n, a).store == n.store
  {
    if a.Step? {
      hide Inv, CanStep, DoStep;
      CanStepFacts(c, n, a.d, a.t);
      var to := StepMoves(c, n, a.d, a.t);
    } else {
      hide Inv, Enabled, Verdict, Put, Bound, Addrs, FinishRange;
    }
  }

  lemma StepLeavesWriting(c: Config, n: Node, e: nat, u: nat, d: nat, t: nat)
    requires Inv(c, n) && Enabled(c, n, Step(e, u)) && Thread(n, d, t) && PcOf(n, d, t).Writing?
    ensures Thread(Next(c, n, Step(e, u)), d, t) && PcOf(Next(c, n, Step(e, u)), d, t) == PcOf(n, d, t)
  {
    hide Inv, CanStep, DoStep;
    CanStepFacts(c, n, e, u);
    var to := StepMoves(c, n, e, u);
    hide Steps, StatusStep, OwnerStep, QueueStep, InTransfer;
  }

  lemma TransferLeavesWriting(c: Config, n: Node, a: Action, d: nat, t: nat)
    requires Shape(c, n) && OfTransfer(a) && Enabled(c, n, a) && Thread(n, d, t) && (a.d, a.t) != (d, t)
    ensures Thread(Next(c, n, a), d, t) && PcOf(Next(c, n, a), d, t) == PcOf(n, d, t)
  {
    hide Shape, Next, Enabled, TransferTarget;
    TransferMoves(c, n, a);
  }

  /** Only its own transfer steps move a goroutine that is writing. */
  lemma WritingStays(c: Config, n: Node, a: Action, d: nat, t: nat)
    requires Inv(c, n) && Shape(c, n) && Enabled(c, n, a)
    requires Thread(n, d, t) && PcOf(n, d, t).Writing?
    requires !(OfTransfer(a) && a.d == d && a.t == t)
    ensures Thread(Next(c, n, a), d, t) && PcOf(Next(c, n, a), d, t) == PcOf(n, d, t)
  {
    hide Inv, Shape;
    if a.Step? {
      hide *;
      StepLeavesWriting(c, n, a.d, a.t, d, t);
    } else if OfTransfer(a) {
      hide *;
      TransferLeavesWriting(c, n, a, d, t);
    }
  }

  lemma OwnTransferStep(c: Config, n: Node, a: Action, d: nat, t: nat)
    requires Shape(c, n) && OfTransfer(a) && Enabled(c, n, a) && a.d == d && a.t == t && PcOf(n, d, t).Writing?
    requires Thread(Next(c, n, a), d, t) && PcOf(Next(c, n, a), d, t).Writing?
    ensures (a.Receive? || a.EndRange?) && PcOf(Next(c, n, a), d, t) == TransferTarget(c, n, a)
  {
    hide Shape, Next, Bound, Accepted;
    TransferMoves(c, n, a);
  }

  lemma ReceiveRoom(c: Config, n: Node, e: nat, u: nat, data: seq<byte>)
    requires Enabled(c, n, Receive(e, u, data))
    ensures Thread(n, e, u) && Room(c, PcOf(n, e, u), data)
  {
    BoundWithin(c, PcOf(n, e, u).i, PcOf(n, e, u).k + 1);
    hide Bound, Addrs;
  }

  lemma OtherChunkInHand(c: Config, n: Node, d: nat, t: nat, e: nat, u: nat)
    requires Inv(c, n) && Thread(n, d, t) && Thread(n, e, u) && (e, u) != (d, t)
    requires PcOf(n, d, t).Writing? && PcOf(n, e, u).Writing?
    ensures PcOf(n, e, u).i != PcOf(n, d, t).i
  {
    TransferFacts(PcOf(n, d, t));
    TransferFacts(PcOf(n, e, u));
    hide Inv, Claim;
    if PcOf(n, e, u).i == PcOf(n, d, t).i { OnlyOwner(c, n, d, t, e, u, PcOf(n, d, t).i); }
  }

  lemma ReceiveBooks(c: Config, n: Node, e: nat, u: nat, data: seq<byte>)
    requires Shape(c, n) && Enabled(c, n, Receive(e, u, data))
    ensures Thread(n, e, u) && Room(c, PcOf(n, e, u), data)
    ensures var m := Next(c, n, Receive(e, u, data));
            m.store == Stored(c, n.store, PcOf(n, e, u), data) && m.log == n.log && m.tally == n.tally
  {
    ReceiveRoom(c, n, e, u, data);
    hide Shape, Put, Addrs, Bound;
  }

  lemma OwnReceive(c: Config, from: Node, n: Node, d: nat, t: nat, data: seq<byte>)
    requires Shape(c, n) && Enabled(c, n, Receive(d, t, data)) && Thread(n, d, t) && Achieved(c, from, n, PcOf(n, d, t))
    ensures Achieved(c, from, Next(c, n, Receive(d, t, data)), TransferTarget(c, n, Receive(d, t, data)))
  {
    var w, to := PcOf(n, d, t), TransferTarget(c, n, Receive(d, t, data));
    assert w.Writing? && to == Writing(w.i, w.k, w.got + data, w.expected) by { hide Bound, Achieved; }
    hide *;
    ReceiveBooks(c, n, d, t, data);
    OwnBytes(c, from, n, Next(c, n, Receive(d, t, data)), w, data);
  }

  lemma OtherReceive(c: Config, sizes: seq<int>, from: Node, n: Node, e: nat, u: nat, data: seq<byte>, d: nat, t: nat)
    requires Partition(sizes, c.plan) && Inv(c, n) && Shape(c, n) && Enabled(c, n, Receive(e, u, data))
    requires Thread(n, d, t) && PcOf(n, d, t).Writing? && (e, u) != (d, t) && Achieved(c, from, n, PcOf(n, d, t))
    ensures Achieved(c, from, Next(c, n, Receive(e, u, data)), PcOf(n, d, t))
  {
    hide *;
    ReceiveBooks(c, n, e, u, data);
    RoomFacts(c, PcOf(n, e, u), data);
    OtherChunkInHand(c, n, d, t, e, u);
    OtherBytes(c, sizes, from, n, Next(c, n, Receive(e, u, data)), PcOf(n, d, t), PcOf(n, e, u), data);
  }

  lemma EndRangeBooks(c: Config, n: Node, e: nat, u: nat)
    requires Shape(c, n) && Enabled(c, n, EndRange(e, u))
    ensures Thread(n, e, u) && PcOf(n, e, u).Writing? && PcOf(n, e, u).i < |c.plan|
    ensures var w, m := PcOf(n, e, u), Next(c, n, EndRange(e, u));
            && w.k < |c.plan[w.i]| && m.store == n.store && m.log == n.log + [(w.i, w.k)]
            && m.tally == FinishRange(n.tally, c.plan[w.i][w.k].fileIndex)
  {
    hide Shape, Bound, FinishRange;
  }

  lemma OwnEndRange(c: Config, from: Node, n: Node, d: nat, t: nat)
    requires Shape(c, n) && Enabled(c, n, EndRange(d, t)) && Thread(n, d, t) && Achieved(c, from, n, PcOf(n, d, t))
    ensures Achieved(c, from, Next(c, n, EndRange(d, t)), TransferTarget(c, n, EndRange(d, t)))
  {
    var w, to := PcOf(n, d, t), TransferTarget(c, n, EndRange(d, t));
    assert to == Writing(w.i, w.k + 1, w.got, w.expected) by { hide Bound, Achieved; }
    hide *;
    EndRangeBooks(c, n, d, t);
    EndsRange(c, from, n, Next(c, n, EndRange(d, t)), w, (w.i, w.k));
  }

  lemma OtherEndRange(c: Config, from: Node, n: Node, e: nat, u: nat, d: nat, t: nat)
    requires Inv(c, n) && Shape(c, n) && Enabled(c, n, EndRange(e, u))
    requires Thread(n, d, t) && PcOf(n, d, t).Writing? && (e, u) != (d, t) && Achieved(c, from, n, PcOf(n, d, t))
    ensures Achieved(c, from, Next(c, n, EndRange(e, u)), PcOf(n, d, t))
  {
    hide *;
    EndRangeBooks(c, n, e, u);
    OtherChunkInHand(c, n, d, t, e, u);
    EndsRange(c, from, n, Next(c, n, EndRange(e, u)), PcOf(n, d, t), (PcOf(n, e, u).i, PcOf(n, e, u).k));
  }

  lemma OthersLeaveIt(c: Config, sizes: seq<int>, from: Node, n: Node, a: Action, d: nat, t: nat)
    requires Partition(sizes, c.plan) && Inv(c, n) && Shape(c, n) && Enabled(c, n, a)
    requires Thread(n, d, t) && PcOf(n, d, t).Writing?
    requires Achieved(c, from, n, PcOf(n, d, t)) && !(OfTransfer(a) && a.d == d && a.t == t)
    ensures Achieved(c, from, Next(c, n, a), PcOf(n, d, t))
  {
    assert a.Receive? || a.EndRange? ==> OfTransfer(a);
    hide *;
    if a.Receive? {
      OtherReceive(c, sizes, from, n, a.d, a.t, a.data, d, t);
    } else if a.EndRange? {
      OtherEndRange(c, from, n, a.d, a.t, d, t);
    } else {
      NextLog(c, n, a);
      NextKeepsStore(c, n, a);
      SameBooks(c, from, n, Next(c, n, a), PcOf(n, d, t));
    }
  }

  lemma NextAchieves(c: Config, sizes: seq<int>, from: Node, n: Node, a: Action, d: nat, t: nat)
    requires Partition(sizes, c.plan) && Inv(c, n) && Shape(c, n) && Enabled(c, n, a)
    requires Thread(n, d, t) && PcOf(n, d, t).Writing?
    requires Achieved(c, from, n, PcOf(n, d, t))
    requires Thread(Next(c, n, a), d, t) && PcOf(Next(c, n, a), d, t).Writing?
    ensures Achieved(c, from, Next(c, n, a), PcOf(Next(c, n, a), d, t))
  {
    var own := OfTransfer(a) && a.d == d && a.t == t;
    hide *;
    if own {
      OwnTransferStep(c, n, a, d, t);
      if a.Receive? { OwnReceive(c, from, n, d, t, a.data); } else { OwnEndRange(c, from, n, d, t); }
    } else {
      WritingStays(c, n, a, d, t);
      OthersLeaveIt(c, sizes, from, n, a, d, t);
    }
  }

  lemma SameBooks(c: Config, from: Node, n: Node, m: Node, w: Pc)
    requires Achieved(c, from, n, w) && m.store == n.store && m.log == n.log && m.tally == n.tally
    ensures Achieved(c, from, m, w)
  {
    hide Content, Put, Addrs, Own, FirstRanges, FinishLog;
  }

  // Every run -----------------------------------------------------------------------------------------

  /** From state `x` to state `y` goroutine (d, t) of node `a` is in one attempt on chunk `i`. */
  ghost predicate InAttempt(run: seq<Swarm>, a: nat, d: nat, t: nat, i: nat, x: nat, y: nat) {
    x <= y < |run| && forall z: nat | x <= z <= y :: WritesAt(run, a, d, t, i, z)
  }

  ghost predicate WritesAt(run: seq<Swarm>, a: nat, d: nat, t: nat, i: nat, z: nat) {
    && z < |run| && a < |run[z]| && Thread(run[z][a], d, t)
    && PcOf(run[z][a], d, t).Writing? && PcOf(run[z][a], d, t).i == i
  }

  /** The attempt has just begun: the reply is there, and no byte yet. */
  ghost predicate BeginsAt(run: seq<Swarm>, a: nat, d: nat, t: nat, i: nat, x: nat) {
    WritesAt(run, a, d, t, i, x) && PcOf(run[x][a], d, t).k == 0 && PcOf(run[x][a], d, t).got == []
  }

  ghost predicate AchievedAt(c: Config, run: seq<Swarm>, a: nat, d: nat, t: nat, i: nat, x: nat, y: nat) {
    WritesAt(run, a, d, t, i, y) && x < |run| && a < |run[x]| && Achieved(c, run[x][a], run[y][a], PcOf(run[y][a], d, t))
  }

  lemma AttemptStarts(c: Config, n: Node, i: nat, expected: nat)
    requires i < |c.plan|
    ensures Achieved(c, n, n, Writing(i, 0, [], expected))
  {
    assert Addrs(c, i)[..0] == [] && n.log[|n.log|..] == [];
    hide Content, Addrs;
  }

  lemma {:induction false} AttemptAchieves(c: Config, sizes: seq<int>, run: seq<Swarm>, taken: seq<Move>,
                                           a: nat, d: nat, t: nat, i: nat, x: nat, y: nat)
    requires Trusted(c, sizes) && Run(c, run, taken) && InAttempt(run, a, d, t, i, x, y) && i < |c.plan|
    requires BeginsAt(run, a, d, t, i, x)
    ensures AchievedAt(c, run, a, d, t, i, x, y)
    decreases y
  {
    assert WritesAt(run, a, d, t, i, y);
    if x == y {
      AttemptStarts(c, run[x][a], i, PcOf(run[x][a], d, t).expected);
    } else {
      assert |run| == |taken| + 1;
      hide Run, Trusted, AchievedAt, WritesAt, BeginsAt;
      AttemptAchieves(c, sizes, run, taken, a, d, t, i, x, y - 1);
      StillAchieves(c, sizes, run, taken, a, d, t, i, x, y - 1);
    }
  }

  lemma StillAchieves(c: Config, sizes: seq<int>, run: seq<Swarm>, taken: seq<Move>,
                      a: nat, d: nat, t: nat, i: nat, x: nat, y: nat)
    requires Trusted(c, sizes) && Run(c, run, taken) && y + 1 < |run| && AchievedAt(c, run, a, d, t, i, x, y)
    requires WritesAt(run, a, d, t, i, y + 1)
    ensures AchievedAt(c, run, a, d, t, i, x, y + 1)
  {
    assert Leads(c, run[y], taken[y], run[y + 1]);
    assert Partition(sizes, c.plan);
    hide Run, Trusted, Achieved, SwarmInv, CanMove, Partition;
    RunHolds(c, sizes, run, taken, y);
    MoveAchieves(c, sizes, run[x][a], run[y], taken[y], a, d, t);
  }

  lemma MoveAchieves(c: Config, sizes: seq<int>, from: Node, s: Swarm, m: Move, a: nat, d: nat, t: nat)
    requires Partition(sizes, c.plan) && SwarmInv(c, s) && CanMove(c, s, m) && a < |s|
    requires Thread(s[a], d, t) && PcOf(s[a], d, t).Writing? && Achieved(c, from, s[a], PcOf(s[a], d, t))
    requires var n := After(c, s, m)[a]; Thread(n, d, t) && PcOf(n, d, t).Writing?
    ensures Achieved(c, from, After(c, s, m)[a], PcOf(After(c, s, m)[a], d, t))
  {
    assert Inv(c, s[m.who]) && Shape(c, s[m.who]) && Enabled(c, s[m.who], m.a);
    hide SwarmInv, Inv, Enabled, Allowed, Shape, Next, Achieved, Partition, Thread, PcOf;
    if m.who == a { NextAchieves(c, sizes, from, s[a], m.a, d, t); }
  }

  /** A transfer is a call of `WriteChunk`, under any interleaving with any other goroutines and nodes.
      From the reply on, wherever the stream stops: of the chunk's bytes, exactly the arrived ones have
      changed, and lie in order; the attempt has counted the chunk's first `k` ranges once each and in
      order, everything that was counted meanwhile is in the log, and `k` is the number of ranges that
      the arrived bytes fill, except in the moment before a full range is counted. */
  lemma TransferIsWriteChunk(c: Config, sizes: seq<int>, run: seq<Swarm>, taken: seq<Move>,
                             a: nat, d: nat, t: nat, i: nat, x: nat, y: nat)
    requires Trusted(c, sizes) && Run(c, run, taken) && InAttempt(run, a, d, t, i, x, y) && i < |c.plan|
    requires BeginsAt(run, a, d, t, i, x)
    ensures WritesAt(run, a, d, t, i, y)
    ensures var n0, n, w := run[x][a], run[y][a], PcOf(run[y][a], d, t);
            && |w.got| <= |Addrs(c, i)|
            && Content(n.store, Addrs(c, i)) == Content(Put(n0.store, Addrs(c, i)[..|w.got|], w.got), Addrs(c, i))
            && n0.log <= n.log && Own(n.log[|n0.log|..], i) == FirstRanges(i, w.k)
            && n.tally == FinishLog(c, n0.tally, n.log[|n0.log|..])
            && w.k <= |c.plan[i]|
            && (w.k == |c.plan[i]| || |w.got| < Bound(c, i, w.k + 1) ==> w.k == RangesFilled(c.plan[i], |w.got|))
  {
    hide Run, Trusted, InAttempt, Achieved, Inv, NodeHolds, UpstreamServes, PcFits;
    AttemptAchieves(c, sizes, run, taken, a, d, t, i, x, y);
    InvOfRun(c, sizes, run, taken, y, a);
    ThreadFacts(c, run[y][a], d, t);
    var n0, n, w := run[x][a], run[y][a], PcOf(run[y][a], d, t);
    assert w.Writing? && w.i == i;
    hide *;
    WhatIsAchieved(c, n0, n, w);
  }

  lemma WhatIsAchieved(c: Config, n0: Node, n: Node, w: Pc)
    requires w.Writing? && w.i < |c.plan| && PcFits(c, w) && Achieved(c, n0, n, w)
    ensures |w.got| <= |Addrs(c, w.i)|
    ensures Content(n.store, Addrs(c, w.i)) == Content(Put(n0.store, Addrs(c, w.i)[..|w.got|], w.got), Addrs(c, w.i))
    ensures n0.log <= n.log && Own(n.log[|n0.log|..], w.i) == FirstRanges(w.i, w.k)
    ensures n.tally == FinishLog(c, n0.tally, n.log[|n0.log|..]) && w.k <= |c.plan[w.i]|
    ensures w.k == |c.plan[w.i]| || |w.got| < Bound(c, w.i, w.k + 1) ==> w.k == RangesFilled(c.plan[w.i], |w.got|)
  {
    hide Content, Put, Addrs, Bound, RangesFilled, Own, FinishLog, FirstRanges;
    if w.k == |c.plan[w.i]| || |w.got| < Bound(c, w.i, w.k + 1) { FullRanges(c, w); }
  }

  lemma FullRanges(c: Config, w: Pc)
    requires w.Writing? && PcFits(c, w)
    requires w.k == |c.plan[w.i]| || |w.got| < Bound(c, w.i, w.k + 1)
    ensures RangesFilled(c.plan[w.i], |w.got|) == w.k
  {
    BoundWithin(c, w.i, w.k);
    FilledIs(c.plan[w.i], |w.got|, w.k);
  }
}
