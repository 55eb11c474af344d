/** Every chunk that is Done anywhere in the swarm holds the source's bytes. */
module SwarmSafety {
  import opened Names
  import opened Planning
  import opened Plans
  import opened Storing
  import opened ChunkWriting
  import opened Nodes
  import opened Options
  import opened NodeInvariants
  import opened NodeSteps
  import opened Swarms

  // The invariant ---------------------------------------------------------------

  ghost predicate Holds(c: Config, store: Store, i: nat) {
    i < |c.plan| && Content(store, Addrs(c, i)) == SourceBytes(c, i)
  }

  /** What a goroutine in the middle of a transfer has achieved. */
  ghost predicate PcHolds(c: Config, store: Store, pc: Pc) {
    match pc
    case Writing(i, k, got, expected) =>
      && i < |c.plan| && |got| <= |Addrs(c, i)| && expected == Expected(c, i)
      && Content(store, Addrs(c, i)[..|got|]) == got
      && (c.verify || got == SourceBytes(c, i)[..|got|])
    case Checked(i, expected) => Holds(c, store, i) && expected == Expected(c, i)
    case Publishing(i) => Holds(c, store, i)
    case _ => true
  }

  ghost predicate CacheAgrees(c: Config, cache: seq<nat>) {
    |cache| == |c.plan| && forall i | 0 <= i < |cache| :: cache[i] == 0 || cache[i] == c.hash(SourceBytes(c, i))
  }

  ghost predicate ThreadsHold(c: Config, n: Node) {
    forall d: nat, t: nat | Thread(n, d, t) :: PcHolds(c, n.store, PcOf(n, d, t))
  }

  ghost predicate DoneHolds(c: Config, n: Node) {
    forall i: nat | IsDone(n.status, i) :: Holds(c, n.store, i)
  }

  ghost predicate NodeHolds(c: Config, n: Node) {
    DoneHolds(c, n) && ThreadsHold(c, n) && CacheAgrees(c, n.cache) && (n.serveOnly ==> n.completed && n.ds == [])
  }

  /** Every chunk that a peer downloader knows is served by that peer. */
  ghost predicate UpstreamServes(s: Swarm, n: Node) {
    forall d | 0 <= d < |n.ds| && n.ds[d].kind.Peer? ::
      && n.ds[d].kind.host < |s|
      && (forall i | i in n.ds[d].known :: Served(s[n.ds[d].kind.host], i))
  }

  ghost predicate SwarmInv(c: Config, s: Swarm) {
    forall a | 0 <= a < |s| :: Inv(c, s[a]) && NodeHolds(c, s[a]) && UpstreamServes(s, s[a])
  }

  // Bytes -----------------------------------------------------------------------

  /** Writing into one chunk leaves every other chunk alone. */
  lemma OtherChunk(c: Config, sizes: seq<int>, store: Store, i: nat, j: nat, from: nat, data: seq<byte>, n: nat)
    requires Partition(sizes, c.plan) && i < |c.plan| && j < |c.plan| && i != j
    requires from + |data| <= |Addrs(c, i)| && n <= |Addrs(c, j)|
    ensures Content(Put(store, Addrs(c, i)[from..from + |data|], data), Addrs(c, j)[..n])
         == Content(store, Addrs(c, j)[..n])
  {
    var at, other := Addrs(c, i)[from..from + |data|], Addrs(c, j)[..n];
    assert forall a | a in at :: a in ChunkAddrs(c.plan[i]);
    assert forall a | a in other :: a in ChunkAddrs(c.plan[j]);
    assert forall a | a in other :: a !in at;
    hide Partition, Put, Addrs;
    ReadDisjoint(store, at, data, other);
  }

  lemma SplitDistinct<T(!new)>(s: seq<T>, k: nat, m: nat)
    requires NoDuplicates(s) && k <= m <= |s|
    ensures NoDuplicates(s[k..m]) && s[..m] == s[..k] + s[k..m]
    ensures forall a | a in s[..k] :: a !in s[k..m]
  {
    forall a | a in s[..k] ensures a !in s[k..m] {
      var j :| 0 <= j < k && s[..k][j] == a;
      assert forall l | k <= l < m :: s[j] != s[l];
    }
  }

  lemma Follows(store: Store, all: seq<Addr>, got: seq<byte>, data: seq<byte>)
    requires NoDuplicates(all) && |got| + |data| <= |all| && Content(store, all[..|got|]) == got
    ensures Content(Put(store, all[|got|..|got| + |data|], data), all[..|got| + |data|]) == got + data
  {
    var at, before := all[|got|..|got| + |data|], all[..|got|];
    hide Put, NoDuplicates, At;
    SplitDistinct(all, |got|, |got| + |data|);
    ReadBack(store, at, data);
    ReadDisjoint(store, at, data, before);
    ContentAppend(Put(store, at, data), before, at);
  }

  lemma ContentAppend(store: Store, a: seq<Addr>, b: seq<Addr>)
    ensures Content(store, a + b) == Content(store, a) + Content(store, b)
  {
    hide At;
  }

  /** The next bytes of a chunk follow the ones already stored. */
  lemma NextBytes(c: Config, sizes: seq<int>, store: Store, i: nat, got: seq<byte>, data: seq<byte>)
    requires Partition(sizes, c.plan) && i < |c.plan| && |got| + |data| <= |Addrs(c, i)|
    requires Content(store, Addrs(c, i)[..|got|]) == got
    ensures Content(Put(store, Addrs(c, i)[|got|..|got| + |data|], data), Addrs(c, i)[..|got| + |data|]) == got + data
  {
    assert NoDuplicates(Addrs(c, i));
    hide *;
    Follows(store, Addrs(c, i), got, data);
  }

  // Every step keeps the invariant ----------------------------------------------

  /** `data` fits into the rest of the chunk that is being written. */
  ghost predicate Room(c: Config, w: Pc, data: seq<byte>) {
    w.Writing? && w.i < |c.plan| && |w.got| + |data| <= |Addrs(c, w.i)|
  }

  lemma RoomFacts(c: Config, w: Pc, data: seq<byte>)
    requires Room(c, w, data)
    ensures w.Writing? && w.i < |c.plan| && Token(w) == Some(w.i) == Claim(w) && |w.got| + |data| <= |Addrs(c, w.i)|
  {
    hide Addrs;
  }

  /** The store after `data` has arrived for the transfer `w`. */
  ghost function Stored(c: Config, store: Store, w: Pc, data: seq<byte>): Store
    requires Room(c, w, data)
  {
    Put(store, Addrs(c, w.i)[|w.got|..|w.got| + |data|], data)
  }

  /** A thread's achievement concerns the chunk it has claimed, and no other. */
  lemma PcHoldsElsewhere(c: Config, sizes: seq<int>, store: Store, pc: Pc, w: Pc, data: seq<byte>)
    requires Partition(sizes, c.plan) && Room(c, w, data)
    requires PcHolds(c, store, pc) && Claim(pc) != Some(w.i)
    ensures PcHolds(c, Stored(c, store, w, data), pc)
  {
    hide Partition, Put, Addrs;
    match pc {
      case Writing(j, k, got, expected) => OtherChunk(c, sizes, store, w.i, j, |w.got|, data, |got|);
      case Checked(j, expected) => HoldsElsewhere(c, sizes, store, j, w, data);
      case Publishing(j) => HoldsElsewhere(c, sizes, store, j, w, data);
      case _ =>
    }
  }

  lemma HoldsElsewhere(c: Config, sizes: seq<int>, store: Store, j: nat, w: Pc, data: seq<byte>)
    requires Partition(sizes, c.plan) && Room(c, w, data) && j != w.i && Holds(c, store, j)
    ensures Holds(c, Stored(c, store, w, data), j)
  {
    hide Partition, Put, Addrs;
    var all := Addrs(c, j);
    assert all[..|all|] == all;
    OtherChunk(c, sizes, store, w.i, j, |w.got|, data, |all|);
  }

  /** Nothing is stored: the invariant needs a look only at threads that moved and chunks that became Done. */
  lemma HoldsAfter(c: Config, n: Node, m: Node)
    requires NodeHolds(c, n) && m.store == n.store && m.serveOnly == n.serveOnly && CacheAgrees(c, m.cache)
    requires m.serveOnly ==> m.completed && m.ds == []
    requires forall d: nat, t: nat | Thread(m, d, t) ::
               (Thread(n, d, t) && PcOf(m, d, t) == PcOf(n, d, t)) || PcHolds(c, m.store, PcOf(m, d, t))
    requires forall i: nat | IsDone(m.status, i) :: IsDone(n.status, i) || Holds(c, m.store, i)
    ensures NodeHolds(c, m)
  {
    hide PcHolds, Holds, CacheAgrees;
  }

  lemma JumpHolds(c: Config, n: Node, d: nat, t: nat, pc: Pc)
    requires NodeHolds(c, n) && Thread(n, d, t) && PcHolds(c, n.store, pc)
    ensures NodeHolds(c, Jump(n, d, t, pc))
  {
    hide PcHolds, Holds, CacheAgrees;
    HoldsAfter(c, n, Jump(n, d, t, pc));
  }

  lemma ServedHolds(c: Config, s: Swarm, h: nat, i: nat)
    requires SwarmInv(c, s) && h < |s| && i < |c.plan| && Served(s[h], i)
    ensures ServedBytes(c, s[h], i) == SourceBytes(c, i)
  {
    hide Content, Addrs, ThreadsHold, CacheAgrees, UpstreamServes, Tokens, Owners;
    var n := s[h];
    assert Inv(c, n) && NodeHolds(c, n);
    if !n.serveOnly {
      hide CountsOf, DownloaderFits, SourceBytes;
      assert IsDone(n.status, i);
      assert Holds(c, n.store, i);
    }
  }

  lemma DigestHolds(c: Config, n: Node, i: nat)
    requires NodeHolds(c, n) && i < |c.plan|
    ensures Digest(c, n, i, SourceBytes(c, i)) == c.hash(SourceBytes(c, i))
  {
    hide ThreadsHold, DoneHolds, SourceBytes;
  }

  /** What a peer downloader has in hand, its peer serves. */
  lemma HandIsServed(c: Config, s: Swarm, who: nat, d: nat, t: nat)
    requires SwarmInv(c, s) && who < |s| && Thread(s[who], d, t) && Token(PcOf(s[who], d, t)).Some?
    requires s[who].ds[d].kind.Peer?
    ensures var h := s[who].ds[d].kind.host; h < |s| && Served(s[h], Token(PcOf(s[who], d, t)).value)
  {
    hide NodeHolds, Token, Served, Shape, Owners, Counts;
    var n := s[who];
    assert Inv(c, n) && UpstreamServes(s, n);
    assert TokensOf(n.ds[d]);
  }

  lemma UpstreamHolds(c: Config, s: Swarm, who: nat, d: nat, t: nat, i: nat)
    requires SwarmInv(c, s) && who < |s| && Thread(s[who], d, t) && Token(PcOf(s[who], d, t)) == Some(i) && i < |c.plan|
    ensures Upstream(c, s, s[who].ds[d].kind, i) == SourceBytes(c, i)
  {
    hide SwarmInv, Token, SourceBytes, ServedBytes, Served;
    if s[who].ds[d].kind.Peer? {
      HandIsServed(c, s, who, d, t);
      ServedHolds(c, s, s[who].ds[d].kind.host, i);
    }
  }

  lemma SetupHolds(c: Config, n: Node, a: Action)
    requires NodeHolds(c, n) && Shape(c, n) && Enabled(c, n, a)
    requires a.Spawn? || a.Invalidate? || a.Cancel? || a.Poll? || a.HandOver? || a.Fail?
    ensures NodeHolds(c, Next(c, n, a))
  {
    hide Holds, CacheAgrees, Shape;
    HoldsAfter(c, n, Next(c, n, a));
  }

  lemma StepHolds(c: Config, n: Node, d: nat, t: nat)
    requires NodeHolds(c, n) && Inv(c, n) && Enabled(c, n, Step(d, t))
    ensures NodeHolds(c, Next(c, n, Step(d, t)))
  {
    hide Inv, Holds, DoStep, CanStep;
    CanStepFacts(c, n, d, t);
    var to := StepMoves(c, n, d, t);
    var m, pc := DoStep(c, n, d, t), PcOf(n, d, t);
    assert PcHolds(c, n.store, pc);
    forall i: nat | IsDone(m.status, i) ensures IsDone(n.status, i) || Holds(c, m.store, i) {
      StepDone(n, m.status, pc, i);
    }
    hide Steps, StatusStep;
    assert PcHolds(c, n.store, to);
    assert CacheAgrees(c, m.cache);
    hide PcHolds, CacheAgrees;
    HoldsAfter(c, n, m);
  }

  /** The bytes accepted at the end of a transfer are the source's, verified or not. */
  lemma AcceptedHolds(c: Config, sizes: seq<int>, store: Store, w: Pc)
    requires Trusted(c, sizes) && w.Writing? && PcHolds(c, store, w) && PcFits(c, w) && w.k == |c.plan[w.i]|
    ensures PcHolds(c, store, Verdict(c, w))
  {
    hide Partition, Inside, Content, Bound;
    var all := Addrs(c, w.i);
    assert all[..|all|] == all && SourceBytes(c, w.i)[..|all|] == SourceBytes(c, w.i);
    if c.verify && Accepted(c.hash, w.expected, w.got) { assert c.hash(w.got) == c.hash(SourceBytes(c, w.i)); }
  }

  lemma ReplyHolds(c: Config, s: Swarm, who: nat, d: nat, t: nat, expected: nat)
    requires SwarmInv(c, s) && CanMove(c, s, Move(who, Reply(d, t, expected)))
    ensures NodeHolds(c, Next(c, s[who], Reply(d, t, expected)))
  {
    var n, i := s[who], PcOf(s[who], d, t).i;
    hide Inv, UpstreamServes, SourceBytes, ServedBytes, Served, Digest, NodeHolds, PcHolds, Content;
    assert Inv(c, n) && NodeHolds(c, n);
    ThreadFacts(c, n, d, t);
    UpstreamHolds(c, s, who, d, t, i);
    DigestHolds(c, if n.ds[d].kind.Peer? then s[n.ds[d].kind.host] else n, i);
    assert expected == Expected(c, i);
    hide SwarmInv, Expected;
    NothingArrived(c, n, i, expected);
    JumpHolds(c, n, d, t, Writing(i, 0, [], expected));
  }

  lemma NothingArrived(c: Config, n: Node, i: nat, expected: nat)
    requires i < |c.plan| && expected == Expected(c, i)
    ensures PcHolds(c, n.store, Writing(i, 0, [], expected))
  {
    assert Content(n.store, Addrs(c, i)[..0]) == [];
  }

  lemma EndRangeHolds(c: Config, n: Node, d: nat, t: nat)
    requires NodeHolds(c, n) && Shape(c, n) && Enabled(c, n, EndRange(d, t))
    ensures NodeHolds(c, Next(c, n, EndRange(d, t)))
  {
    hide Shape, Holds, CacheAgrees, Content, Addrs, SourceBytes, Bound, FinishRange;
    var w := PcOf(n, d, t);
    assert PcHolds(c, n.store, w);
    assert PcHolds(c, n.store, Writing(w.i, w.k + 1, w.got, w.expected));
    hide PcHolds;
    HoldsAfter(c, n, Next(c, n, EndRange(d, t)));
  }

  lemma CheckSumHolds(c: Config, sizes: seq<int>, n: Node, d: nat, t: nat)
    requires Trusted(c, sizes) && NodeHolds(c, n) && Inv(c, n) && Enabled(c, n, CheckSum(d, t))
    ensures NodeHolds(c, Next(c, n, CheckSum(d, t)))
  {
    hide Inv, Trusted, Holds, CacheAgrees, DoneHolds, PcHolds, PcFits, Verdict;
    ThreadFacts(c, n, d, t);
    AcceptedHolds(c, sizes, n.store, PcOf(n, d, t));
    hide NodeHolds;
    JumpHolds(c, n, d, t, Verdict(c, PcOf(n, d, t)));
  }

  lemma FillCacheHolds(c: Config, s: Swarm, who: nat, i: nat, value: nat)
    requires SwarmInv(c, s) && CanMove(c, s, Move(who, FillCache(i, value)))
    ensures NodeHolds(c, Next(c, s[who], FillCache(i, value)))
  {
    hide Inv, UpstreamServes, SourceBytes, ServedBytes, Served, Digest, PcHolds, Holds;
    var n := s[who];
    assert Inv(c, n) && NodeHolds(c, n) && |n.cache| == |c.plan|;
    if Served(n, i) { ServedHolds(c, s, who, i); }
    DigestHolds(c, n, i);
    hide SwarmInv;
    HoldsAfter(c, n, Next(c, n, FillCache(i, value)));
  }

  /** The receiving thread itself: what it has stored so far is what arrived, in order. */
  lemma ReceivedHolds(c: Config, sizes: seq<int>, store: Store, w: Pc, data: seq<byte>)
    requires Partition(sizes, c.plan) && Room(c, w, data) && PcHolds(c, store, w)
    requires Delivers(c, w, data, SourceBytes(c, w.i))
    ensures PcHolds(c, Stored(c, store, w, data), Writing(w.i, w.k, w.got + data, w.expected))
  {
    hide Partition, Put, Addrs, Content;
    NextBytes(c, sizes, store, w.i, w.got, data);
    if !c.verify {
      var all, k, m := SourceBytes(c, w.i), |w.got|, |w.got| + |data|;
      assert all[..m] == all[..k] + all[k..m];
    }
  }

  /** One thread has claimed each chunk. */
  lemma OnlyOwner(c: Config, n: Node, d: nat, t: nat, e: nat, u: nat, i: nat)
    requires Inv(c, n) && Thread(n, d, t) && Thread(n, e, u)
    requires Claim(PcOf(n, d, t)) == Some(i) && Claim(PcOf(n, e, u)) == Some(i)
    ensures d == e && t == u
  {
    hide Claim, Shape, Tokens, Counts;
    assert n.owner[i] == (d, t);
  }

  lemma OthersHold(c: Config, sizes: seq<int>, n: Node, d: nat, t: nat, data: seq<byte>, e: nat, u: nat)
    requires Partition(sizes, c.plan) && Inv(c, n) && Thread(n, d, t) && Thread(n, e, u) && (e, u) != (d, t)
    requires Room(c, PcOf(n, d, t), data) && PcHolds(c, n.store, PcOf(n, e, u))
    ensures PcHolds(c, Stored(c, n.store, PcOf(n, d, t), data), PcOf(n, e, u))
  {
    hide *;
    var w := PcOf(n, d, t);
    RoomFacts(c, w, data);
    if Claim(PcOf(n, e, u)) == Some(w.i) { OnlyOwner(c, n, d, t, e, u, w.i); }
    PcHoldsElsewhere(c, sizes, n.store, PcOf(n, e, u), w, data);
  }

  lemma DoneStillHolds(c: Config, sizes: seq<int>, n: Node, d: nat, t: nat, data: seq<byte>, i: nat)
    requires Partition(sizes, c.plan) && Inv(c, n) && Thread(n, d, t) && Room(c, PcOf(n, d, t), data)
    requires IsDone(n.status, i) && Holds(c, n.store, i)
    ensures Holds(c, Stored(c, n.store, PcOf(n, d, t), data), i)
  {
    hide Inv, Partition, Room, Stored, Holds, Claim, PcOf, Thread, Token;
    var w := PcOf(n, d, t);
    RoomFacts(c, w, data);
    ClaimFacts(c, n, d, t, w.i);
    HoldsElsewhere(c, sizes, n.store, i, w, data);
  }

  lemma ReceiveFacts(c: Config, n: Node, d: nat, t: nat, data: seq<byte>)
    requires Thread(n, d, t) && Room(c, PcOf(n, d, t), data)
    ensures var w, m := PcOf(n, d, t), DoReceive(c, n, d, t, data);
            && m.store == Stored(c, n.store, w, data)
            && m.status == n.status && m.cache == n.cache && m.serveOnly == n.serveOnly && n.ds != []
            && (forall e: nat, u: nat :: Thread(m, e, u) == Thread(n, e, u))
            && PcOf(m, d, t) == Writing(w.i, w.k, w.got + data, w.expected)
            && (forall e: nat, u: nat | Thread(n, e, u) && (e, u) != (d, t) :: PcOf(m, e, u) == PcOf(n, e, u))
  {
    hide Put, Addrs;
  }

  lemma ReceiveThread(c: Config, sizes: seq<int>, n: Node, d: nat, t: nat, data: seq<byte>, m: Node, e: nat, u: nat)
    requires Partition(sizes, c.plan) && Inv(c, n) && Thread(n, d, t) && Room(c, PcOf(n, d, t), data)
    requires Delivers(c, PcOf(n, d, t), data, SourceBytes(c, PcOf(n, d, t).i))
    requires m == DoReceive(c, n, d, t, data) && Thread(n, e, u) && Thread(m, e, u) && PcHolds(c, n.store, PcOf(n, e, u))
    ensures PcHolds(c, m.store, PcOf(m, e, u))
  {
    hide *;
    ReceiveFacts(c, n, d, t, data);
    if (e, u) == (d, t) {
      ReceivedHolds(c, sizes, n.store, PcOf(n, d, t), data);
    } else {
      OthersHold(c, sizes, n, d, t, data, e, u);
    }
  }

  lemma ReceiveHolds(c: Config, sizes: seq<int>, n: Node, d: nat, t: nat, data: seq<byte>)
    requires Partition(sizes, c.plan) && Inv(c, n) && Thread(n, d, t) && Room(c, PcOf(n, d, t), data)
    requires Delivers(c, PcOf(n, d, t), data, SourceBytes(c, PcOf(n, d, t).i))
    requires NodeHolds(c, n)
    ensures NodeHolds(c, DoReceive(c, n, d, t, data))
  {
    hide Inv, Partition, Room, Stored, SourceBytes, PcHolds, Holds, DoReceive, IsDone, Thread, PcOf, Addrs, Delivers;
    ReceiveFacts(c, n, d, t, data);
    RoomFacts(c, PcOf(n, d, t), data);
    var m := DoReceive(c, n, d, t, data);
    forall e: nat, u: nat | Thread(m, e, u) ensures PcHolds(c, m.store, PcOf(m, e, u)) {
      ReceiveThread(c, sizes, n, d, t, data, m, e, u);
    }
    forall i: nat | IsDone(m.status, i) ensures Holds(c, m.store, i) {
      DoneStillHolds(c, sizes, n, d, t, data, i);
    }
  }

  lemma ReceiveAllowed(c: Config, s: Swarm, who: nat, d: nat, t: nat, data: seq<byte>)
    requires CanMove(c, s, Move(who, Receive(d, t, data)))
    ensures who < |s| && Thread(s[who], d, t) && Room(c, PcOf(s[who], d, t), data)
    ensures Delivers(c, PcOf(s[who], d, t), data, Upstream(c, s, s[who].ds[d].kind, PcOf(s[who], d, t).i))
  {
    hide Bound, Upstream, Addrs;
    var w := PcOf(s[who], d, t);
    BoundWithin(c, w.i, w.k + 1);
  }

  lemma ReceiveMoveHolds(c: Config, sizes: seq<int>, s: Swarm, who: nat, d: nat, t: nat, data: seq<byte>)
    requires Partition(sizes, c.plan) && SwarmInv(c, s) && who < |s| && Inv(c, s[who]) && NodeHolds(c, s[who])
    requires Thread(s[who], d, t) && Room(c, PcOf(s[who], d, t), data)
    requires Delivers(c, PcOf(s[who], d, t), data, Upstream(c, s, s[who].ds[d].kind, PcOf(s[who], d, t).i))
    ensures NodeHolds(c, DoReceive(c, s[who], d, t, data))
  {
    var n, w := s[who], PcOf(s[who], d, t);
    hide *;
    RoomFacts(c, w, data);
    UpstreamHolds(c, s, who, d, t, w.i);
    ReceiveHolds(c, sizes, n, d, t, data);
  }

  lemma MoveHolds(c: Config, sizes: seq<int>, s: Swarm, who: nat, a: Action)
    requires Trusted(c, sizes) && SwarmInv(c, s) && CanMove(c, s, Move(who, a))
    ensures NodeHolds(c, Next(c, s[who], a))
  {
    var n := s[who];
    assert Inv(c, n) && NodeHolds(c, n) && Shape(c, n) && Partition(sizes, c.plan);
    assert Enabled(c, n, a);
    if a.Receive? { ReceiveAllowed(c, s, who, a.d, a.t, a.data); }
    assert a.Receive? ==> Next(c, n, a) == DoReceive(c, n, a.d, a.t, a.data);
    hide SwarmInv, Inv, Trusted, CanMove, Shape, NodeHolds, Next, Enabled, Partition;
    match a {
      case Reply(d, t, expected) => ReplyHolds(c, s, who, d, t, expected);
      case FillCache(i, value) => FillCacheHolds(c, s, who, i, value);
      case Receive(d, t, data) => ReceiveMoveHolds(c, sizes, s, who, d, t, data);
      case EndRange(d, t) => EndRangeHolds(c, n, d, t);
      case CheckSum(d, t) => CheckSumHolds(c, sizes, n, d, t);
      case Step(d, t) => StepHolds(c, n, d, t);
      case _ => SetupHolds(c, n, a);
    }
  }

  /** What is served once is served for ever: no chunk stops being Done, and no node uncompleted. */
  lemma NextKeepsServed(c: Config, n: Node, a: Action, i: nat)
    requires Inv(c, n) && Enabled(c, n, a) && Served(n, i)
    ensures Served(Next(c, n, a), i)
    ensures IsDone(n.status, i) ==> IsDone(Next(c, n, a).status, i)
  {
    if a.Step? {
      hide Inv, CanStep, DoStep;
      CanStepFacts(c, n, a.d, a.t);
      var to := StepMoves(c, n, a.d, a.t);
      var m := DoStep(c, n, a.d, a.t);
      hide Steps, StatusStep;
      if IsDone(n.status, i) { StepDone(n, m.status, PcOf(n, a.d, a.t), i); }
    } else {
      hide Inv, Enabled, Verdict, Put, FinishRange, Bound, Addrs;
    }
  }

  /** Only a poll or a new downloader tells a node of chunks. */
  ghost predicate SameKnown(n: Node, m: Node) {
    |m.ds| == |n.ds| && forall d | 0 <= d < |n.ds| :: m.ds[d].kind == n.ds[d].kind && m.ds[d].known == n.ds[d].known
  }

  lemma TransferKnown(c: Config, n: Node, a: Action)
    requires Shape(c, n) && OfTransfer(a) && Enabled(c, n, a)
    ensures SameKnown(n, Next(c, n, a))
  {
    TransferMoves(c, n, a);
    hide Shape, Next, Enabled, TransferTarget;
  }

  lemma OtherKnown(c: Config, n: Node, a: Action)
    requires Shape(c, n) && Enabled(c, n, a) && !a.Step? && !OfTransfer(a)
    ensures var m := Next(c, n, a);
            && (!a.Spawn? && !a.Poll? ==> SameKnown(n, m))
            && (a.Poll? ==> m.ds == n.ds[a.d := m.ds[a.d]] && m.ds[a.d].kind == n.ds[a.d].kind
                            && m.ds[a.d].known == n.ds[a.d].known + Elements(a.list))
            && (a.Spawn? ==> |m.ds| == |n.ds| + 1 && m.ds[..|n.ds|] == n.ds
                             && m.ds[|n.ds|].kind == a.kind && m.ds[|n.ds|].known == Elements(a.queue))
  {
    hide Shape, DoStep, CanStep, DoReceive, DoEndRange, Jump, Verdict, Put, FinishRange, Bound, Addrs, Elements;
  }

  lemma StepKnown(c: Config, n: Node, d: nat, t: nat)
    requires Inv(c, n) && Enabled(c, n, Step(d, t))
    ensures SameKnown(n, Next(c, n, Step(d, t)))
  {
    assert Next(c, n, Step(d, t)) == DoStep(c, n, d, t);
    hide Inv, CanStep, DoStep, Next;
    CanStepFacts(c, n, d, t);
    var to := StepMoves(c, n, d, t);
    hide Steps, StatusStep, QueueStep, OwnerStep;
  }

  lemma NextKnown(c: Config, n: Node, a: Action)
    requires Inv(c, n) && Enabled(c, n, a)
    ensures var m := Next(c, n, a);
            && |m.ds| == |n.ds| + (if a.Spawn? then 1 else 0)
            && (forall d | 0 <= d < |n.ds| ::
                  && m.ds[d].kind == n.ds[d].kind
                  && m.ds[d].known == n.ds[d].known + if a.Poll? && a.d == d then Elements(a.list) else {})
            && (a.Spawn? ==> m.ds[|n.ds|].kind == a.kind && m.ds[|n.ds|].known == Elements(a.queue))
  {
    assert Shape(c, n);
    hide Inv, Shape, Next, Enabled;
    if a.Step? {
      StepKnown(c, n, a.d, a.t);
    } else if OfTransfer(a) {
      TransferKnown(c, n, a);
    } else {
      OtherKnown(c, n, a);
    }
  }

  lemma UpstreamStaysSame(s: Swarm, s': Swarm, n: Node)
    requires UpstreamServes(s, n) && |s'| == |s|
    requires forall h, i: nat | 0 <= h < |s| && Served(s[h], i) :: Served(s'[h], i)
    ensures UpstreamServes(s', n)
  {
    hide Served;
    assert forall d, i | 0 <= d < |n.ds| && i in n.ds[d].known :: i >= 0;
  }

  lemma MoverIsServed(c: Config, s: Swarm, s': Swarm, who: nat, a: Action)
    requires CanMove(c, s, Move(who, a)) && Inv(c, s[who]) && UpstreamServes(s, s[who]) && |s'| == |s|
    requires forall h, i: nat | 0 <= h < |s| && Served(s[h], i) :: Served(s'[h], i)
    ensures UpstreamServes(s', Next(c, s[who], a))
  {
    var n, m := s[who], Next(c, s[who], a);
    NextKnown(c, n, a);
    hide Inv, Next, Served, Shape;
    UpstreamStaysSame(s, s', n);
    if a.Spawn? { assert a.kind.Peer? ==> a.queue == [] && a.kind.host < |s|; }
    if a.Poll? {
      assert n.ds[a.d].kind.host < |s| && forall i | i in a.list :: Served(s[n.ds[a.d].kind.host], i);
      hide Enabled, Allowed;
    }
  }

  lemma ServedAfter(c: Config, s: Swarm, m: Move, h: nat, i: nat)
    requires SwarmInv(c, s) && CanMove(c, s, m) && h < |s| && Served(s[h], i)
    ensures Served(After(c, s, m)[h], i)
  {
    assert Inv(c, s[m.who]) && Enabled(c, s[m.who], m.a);
    hide SwarmInv, Inv, CanMove, Next, Served;
    if h == m.who { NextKeepsServed(c, s[h], m.a, i); }
  }

  /** Every move of any node keeps the invariant of the whole swarm. */
  lemma MoveKeepsSwarmInv(c: Config, sizes: seq<int>, s: Swarm, m: Move)
    requires Trusted(c, sizes) && SwarmInv(c, s) && CanMove(c, s, m)
    ensures SwarmInv(c, After(c, s, m))
  {
    var n, s' := s[m.who], After(c, s, m);
    assert Inv(c, n) && UpstreamServes(s, n) && Enabled(c, n, m.a) && m == Move(m.who, m.a);
    forall h, i: nat | 0 <= h < |s| && Served(s[h], i) ensures Served(s'[h], i) {
      ServedAfter(c, s, m, h, i);
    }
    hide Inv, NodeHolds, UpstreamServes, Next, CanMove, Served, Trusted, Shape, Enabled;
    NextKeepsInv(c, n, m.a);
    MoveHolds(c, sizes, s, m.who, m.a);
    MoverIsServed(c, s, s', m.who, m.a);
    forall a | 0 <= a < |s| && a != m.who ensures UpstreamServes(s', s'[a]) {
      UpstreamStaysSame(s, s', s[a]);
    }
  }

  lemma StartHolds(c: Config, s: Swarm)
    requires Start(c, s)
    ensures SwarmInv(c, s)
  {
    forall a | 0 <= a < |s| ensures Inv(c, s[a]) && NodeHolds(c, s[a]) && UpstreamServes(s, s[a]) {
      assert Fresh(c, s[a]);
    }
  }

  /** Induction over a run. */
  lemma {:induction false} RunHolds(c: Config, sizes: seq<int>, states: seq<Swarm>, moves: seq<Move>, k: nat)
    requires Trusted(c, sizes) && Run(c, states, moves) && k < |states|
    ensures SwarmInv(c, states[k])
  {
    if k == 0 {
      StartHolds(c, states[0]);
    } else {
      RunHolds(c, sizes, states, moves, k - 1);
      assert Leads(c, states[k - 1], moves[k - 1], states[k - 1 + 1]);
      hide SwarmInv, CanMove;
      MoveKeepsSwarmInv(c, sizes, states[k - 1], moves[k - 1]);
    }
  }
}
