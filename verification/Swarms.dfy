/** Many nodes that fetch chunks from sources and from each other (src/http_server.go,
    src/peer_downloader.go), over all interleavings of their steps. */
module Swarms {
  import opened Names
  import opened Planning
  import opened Plans
  import opened Storing
  import opened ChunkWriting
  import opened Nodes

  type Swarm = seq<Node>

  /** The next step is taken by node `who`. */
  datatype Move = Move(who: nat, a: Action)

  function SourceBytes(c: Config, i: nat): seq<byte>
    requires i < |c.plan|
  {
    Content(c.source, Addrs(c, i))
  }

  /** The plan splits the files; corruption is possible only when transfers are verified, and then the
      hash has no collisions and no chunk has the digest 0, which `WriteChunk` does not check. */
  ghost predicate Trusted(c: Config, sizes: seq<int>) {
    && Partition(sizes, c.plan)
    && (forall i, k | 0 <= i < |c.plan| && 0 <= k < |c.plan[i]| :: Inside(sizes, c.plan[i][k]))
    && (c.verify ==> CollisionFree(c.hash) && forall i: nat | i < |c.plan| :: c.hash(SourceBytes(c, i)) != 0)
  }

  // What a node serves (src/http_server.go:219-281) ----------------------------

  /** The guard of the chunk handler: serve-only and completed nodes serve everything. */
  predicate Served(n: Node, i: nat) {
    n.serveOnly || n.completed || IsDone(n.status, i)
  }

  function ServedBytes(c: Config, n: Node, i: nat): seq<byte>
    requires i < |c.plan|
  {
    if n.serveOnly then SourceBytes(c, i) else Content(n.store, Addrs(c, i))
  }

  /** What `ComputeChunkChecksum` returns: the cached value, or the hash of the bytes at hand. */
  function Digest(c: Config, n: Node, i: nat, bytes: seq<byte>): nat {
    if i < |n.cache| && n.cache[i] != 0 then n.cache[i] else c.hash(bytes)
  }

  function Expected(c: Config, i: nat): nat
    requires i < |c.plan|
  {
    if c.verify then c.hash(SourceBytes(c, i)) else 0
  }

  /** What a downloader of `n` reads of chunk `i`. */
  function Upstream(c: Config, s: Swarm, kind: Kind, i: nat): seq<byte>
    requires i < |c.plan|
  {
    match kind
    case Local => SourceBytes(c, i)
    case Peer(h) => if h < |s| then ServedBytes(c, s[h], i) else []
  }

  /** A transfer that is not verified delivers the next of the upstream's bytes; a verified one may
      deliver any bytes at all. */
  ghost predicate Delivers(c: Config, w: Pc, data: seq<byte>, bytes: seq<byte>)
    requires w.Writing?
  {
    c.verify || (|w.got| + |data| <= |bytes| && data == bytes[|w.got|..|w.got| + |data|])
  }

  /** What the other nodes let a step of `who` see. */
  ghost predicate Allowed(c: Config, s: Swarm, who: nat, a: Action)
    requires who < |s| && Shape(c, s[who]) && Enabled(c, s[who], a)
  {
    var n := s[who];
    match a
    case Spawn(kind, _, _) => kind.Peer? ==> kind.host < |s|
    case Poll(d, list) =>
      var h := n.ds[d].kind.host; h < |s| && h != who && forall i | i in list :: Served(s[h], i)
    case FillCache(i, value) =>
      || (Served(n, i) && value == Digest(c, n, i, ServedBytes(c, n, i)))
      || value == Digest(c, n, i, SourceBytes(c, i))
    case Reply(d, t, expected) =>
      var i := PcOf(n, d, t).i;
      assert PcFits(c, PcOf(n, d, t));
      (match n.ds[d].kind
       case Local => expected == if c.verify then Digest(c, n, i, SourceBytes(c, i)) else 0
       case Peer(h) =>
         h < |s| && Served(s[h], i)
         && expected == if c.verify then Digest(c, s[h], i, ServedBytes(c, s[h], i)) else 0)
    case Receive(d, t, data) =>
      var w := PcOf(n, d, t);
      Delivers(c, w, data, Upstream(c, s, n.ds[d].kind, w.i))
    case _ => true
  }

  ghost predicate CanMove(c: Config, s: Swarm, m: Move) {
    m.who < |s| && Shape(c, s[m.who]) && Enabled(c, s[m.who], m.a) && Allowed(c, s, m.who, m.a)
  }

  ghost function After(c: Config, s: Swarm, m: Move): Swarm
    requires CanMove(c, s, m)
  {
    s[m.who := Next(c, s[m.who], m.a)]
  }

  /** A fresh node: nothing downloaded, old bytes in the destination. A serve-only node is completed. */
  ghost predicate Fresh(c: Config, n: Node) {
    && |n.status| == |n.cache| == |n.writes| == |c.plan|
    && (forall i | 0 <= i < |c.plan| :: n.status[i].Pending? && n.cache[i] == 0 && n.writes[i] == 0)
    && n.ds == [] && n.owner == map[] && n.log == [] && !n.cancelled && n.completed == n.serveOnly
    && (forall f | 0 <= f < |n.tally.remaining| :: n.tally.remaining[f] == RangeCount(c.plan, f)) && n.tally.completed == []
  }

  ghost predicate Start(c: Config, s: Swarm) {
    forall a | 0 <= a < |s| :: Fresh(c, s[a])
  }

  ghost predicate Leads(c: Config, s: Swarm, m: Move, s': Swarm) {
    CanMove(c, s, m) && s' == After(c, s, m)
  }

  /** A run: the states `states` from a fresh start, one move between each two of them. */
  ghost predicate Run(c: Config, states: seq<Swarm>, moves: seq<Move>) {
    && |states| == |moves| + 1 && Start(c, states[0])
    && forall k | 0 <= k < |moves| :: Leads(c, states[k], moves[k], states[k + 1])
  }

  function Last(states: seq<Swarm>): Swarm
    requires states != []
  {
    states[|states| - 1]
  }

  lemma RunGoesOn(c: Config, run: seq<Swarm>, taken: seq<Move>, m: Move)
    requires Run(c, run, taken) && CanMove(c, Last(run), m)
    ensures Run(c, run + [After(c, Last(run), m)], taken + [m])
  {
    assert Leads(c, Last(run), m, After(c, Last(run), m));
    hide Start, Leads, CanMove, After;
  }

  lemma StepOfRun(c: Config, states: seq<Swarm>, moves: seq<Move>, k: nat)
    requires Run(c, states, moves) && k + 1 < |states|
    ensures k < |moves| && Leads(c, states[k], moves[k], states[k + 1])
    ensures moves[k].who < |states[k]| == |states[k + 1]|
  {
    assert Leads(c, states[k], moves[k], states[k + 1]);
    hide Start, Shape, Enabled, Allowed, Next;
  }
}
