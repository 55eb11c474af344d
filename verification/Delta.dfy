/** Delta polling: a peer asks again and again for the chunks finished since its last answer
    (src/http_server.go:201-217, src/transfer/chunk_manager.go:146-169, src/peer_downloader.go:199-235).
    Time is a logical clock that ticks at every `time.Now()`. */
module Delta {
  import opened PeerLists

  /** A finished chunk: its stamp is taken, then its status becomes Done, then the stamp is stored. */
  datatype Stage = Unfinished | Taken(at: nat) | Published(at: nat) | Stamped(at: nat)

  predicate IsDone(s: Stage) {
    s.Published? || s.Stamped?
  }

  /** The stored stamp; 0 is the zero time. */
  function UpdatedAt(s: Stage): nat {
    if s.Stamped? then s.at else 0
  }

  /** The test of `GetStatusDoneChunks`. */
  predicate Reports(s: Stage, since: nat) {
    IsDone(s) && UpdatedAt(s) > since
  }

  /** An uninterrupted scan: the indices of the reported chunks, in order. */
  method GetStatusDoneChunks(stages: array<Stage>, updatedSince: nat) returns (indexList: seq<nat>)
    ensures forall i :: i in indexList <==> 0 <= i < stages.Length && stages[i].Stamped? && stages[i].at > updatedSince
    ensures forall i | 0 <= i < stages.Length :: Reports(stages[i], updatedSince) <==> i in indexList
    ensures forall j, k | 0 <= j < k < |indexList| :: indexList[j] < indexList[k]
  {
    indexList := [];
    var index := 0;
    while index < stages.Length
      invariant 0 <= index <= stages.Length
      invariant forall i :: i in indexList <==> 0 <= i < index && stages[i].Stamped? && stages[i].at > updatedSince
      invariant forall j, k | 0 <= j < k < |indexList| :: indexList[j] < indexList[k]
    {
      assert forall j | 0 <= j < |indexList| :: indexList[j] in indexList;
      if IsDone(stages[index]) && UpdatedAt(stages[index]) > updatedSince {
        indexList := indexList + [index];
      }
      index := index + 1;
    }
  }

  datatype Phase =
    | Idle
    | Asked(since: nat, ts: nat)
    | Scanning(since: nat, ts: nat, next: nat, list: set<nat>)
    | Answered(ts: nat, list: set<nat>, all: bool)

  /** `marked` and `last` are the client's; the phase is the poll under way. The others are history
      variables that no step depends on. `seen` and `full` belong to a client that asks for all Done
      chunks each time: what the answer under way would list, and what it would have marked.
      `missed` and `late` are the chunks whose stamp was taken before the poll but not stored yet when
      the scan passed them: in the answer under way, and in delivered ones. `told` says that a
      complete answer has been delivered. */
  datatype State = State(stages: seq<Stage>, clock: nat, completed: bool, phase: Phase, marked: set<nat>, last: nat,
                         seen: set<nat>, full: set<nat>, missed: set<nat>, late: set<nat>, told: bool)

  datatype Action =
    | Take(i: nat) | Publish(i: nat) | Stamp(i: nat) | Complete
    | Finish(i: nat)
    | Ask | Check | Scan | Send | Deliver | Lose

  predicate Enabled(s: State, a: Action) {
    match a
    case Take(i) => i < |s.stages| && s.stages[i].Unfinished?
    case Publish(i) => i < |s.stages| && s.stages[i].Taken?
    case Stamp(i) => i < |s.stages| && s.stages[i].Published?
    case Finish(i) => i < |s.stages| && s.stages[i].Unfinished?
    case Complete => forall i | 0 <= i < |s.stages| :: IsDone(s.stages[i])
    case Ask => s.phase.Idle?
    case Check => s.phase.Asked?
    case Scan => s.phase.Scanning? && s.phase.next < |s.stages|
    case Send => s.phase.Scanning? && s.phase.next == |s.stages|
    case Deliver => s.phase.Answered?
    case Lose => !s.phase.Idle?
  }

  function Next(s: State, a: Action): State
    requires Enabled(s, a)
  {
    match a
    case Take(i) => s.(stages := s.stages[i := Taken(s.clock + 1)], clock := s.clock + 1)
    case Publish(i) => s.(stages := s.stages[i := Published(s.stages[i].at)])
    case Stamp(i) => s.(stages := s.stages[i := Stamped(s.stages[i].at)])
    // stamp and publish in one step: what the code would have to do
    case Finish(i) => s.(stages := s.stages[i := Stamped(s.clock + 1)], clock := s.clock + 1)
    case Complete => s.(completed := true)
    case Ask => s.(phase := Asked(s.last, s.clock + 1), clock := s.clock + 1)
    case Check =>
      if s.completed then s.(phase := Answered(s.phase.ts, {}, true), missed := {}, seen := {})
      else s.(phase := Scanning(s.phase.since, s.phase.ts, 0, {}), missed := {}, seen := {})
    case Scan =>
      var p := s.phase;
      var stage, me := s.stages[p.next], {p.next};
      s.(phase := p.(next := p.next + 1, list := p.list + if Reports(stage, p.since) then me else {}),
         seen := s.seen + if IsDone(stage) then me else {},
         missed := s.missed + if (stage.Taken? || stage.Published?) && stage.at <= p.ts then me else {})
    case Send => s.(phase := Answered(s.phase.ts, s.phase.list, false))
    case Deliver =>
      var all := if s.phase.all then AllBelow(|s.stages|) else {};
      s.(phase := Idle, last := s.phase.ts, marked := s.marked + s.phase.list + all,
         full := s.full + s.seen + all, late := s.late + s.missed, told := s.told || s.phase.all)
    case Lose => s.(phase := Idle)
  }

  predicate Start(s: State) {
    && (forall i | 0 <= i < |s.stages| :: s.stages[i].Unfinished?)
    && s.clock == s.last == 0 && !s.completed && s.phase == Idle
    && s.marked == s.seen == s.full == s.missed == s.late == {} && !s.told
  }

  predicate Leads(s: State, a: Action, s': State) {
    Enabled(s, a) && s' == Next(s, a)
  }

  predicate Run(states: seq<State>, actions: seq<Action>) {
    && |states| == |actions| + 1 && Start(states[0])
    && forall k | 0 <= k < |actions| :: Leads(states[k], actions[k], states[k + 1])
  }

  // The invariant -----------------------------------------------------------------

  /** The stamp of chunk `i` was taken no later than `t`. */
  predicate Before(stages: seq<Stage>, i: nat, t: nat) {
    i < |stages| && !stages[i].Unfinished? && stages[i].at <= t
  }

  /** No two readings of the clock are equal. */
  ghost predicate Times(s: State) {
    && s.last <= s.clock
    && (forall i | 0 <= i < |s.stages| && !s.stages[i].Unfinished? :: 0 < s.stages[i].at <= s.clock && s.stages[i].at != s.last)
    && (!s.phase.Idle? ==>
          && s.last < s.phase.ts <= s.clock
          && (forall i | 0 <= i < |s.stages| && !s.stages[i].Unfinished? :: s.stages[i].at != s.phase.ts))
    && (s.phase.Asked? || s.phase.Scanning? ==> s.phase.since == s.last)
  }

  /** What the scan has found in the first `next` chunks. */
  ghost predicate Scanned(s: State, next: nat, ts: nat, list: set<nat>) {
    && (forall i | i in list :: i < next && Before(s.stages, i, s.clock) && s.stages[i].Stamped? && s.stages[i].at > s.last)
    && (forall i | i in s.missed :: i < next && Before(s.stages, i, ts) && i !in list)
    && (forall i | i in s.seen :: i < |s.stages| && IsDone(s.stages[i]))
    && (forall i | 0 <= i < next && Before(s.stages, i, ts) && s.stages[i].at > s.last :: i in list || i in s.missed)
    && list <= s.seen && (!s.told ==> s.missed !! s.marked)
  }

  ghost predicate PhaseFits(s: State) {
    match s.phase
    case Scanning(_, ts, next, list) => next <= |s.stages| && Scanned(s, next, ts, list)
    case Answered(ts, list, false) => Scanned(s, |s.stages|, ts, list)
    case Answered(_, list, true) => s.completed && list == s.missed == s.seen == {}
    case _ => true
  }

  ghost predicate ClientFits(s: State) {
    && (s.completed ==> forall i | 0 <= i < |s.stages| :: IsDone(s.stages[i]))
    && (forall i | i in s.full :: i < |s.stages| && IsDone(s.stages[i]))
    && s.marked <= s.full
    && (!s.told ==> forall i | i in s.marked :: s.stages[i].Stamped?)
    && (s.told ==> s.marked == AllBelow(|s.stages|))
    && (forall i | i in s.late :: Before(s.stages, i, s.last))
    && (!s.told ==> forall i | Before(s.stages, i, s.last) :: i in s.marked <==> i !in s.late)
  }

  ghost predicate Inv(s: State) {
    Times(s) && PhaseFits(s) && ClientFits(s)
  }

  lemma NextKeepsTimes(s: State, a: Action)
    requires Inv(s) && Enabled(s, a)
    ensures Times(Next(s, a))
  {
    hide PhaseFits, ClientFits;
  }

  /** A stamp, once taken, stays; a stored status or stamp stays; a new stamp is later than all others. */
  ghost predicate Advances(s: State, m: State) {
    && m == s.(stages := m.stages, clock := m.clock) && s.clock <= m.clock && |m.stages| == |s.stages|
    && forall i | 0 <= i < |s.stages| && m.stages[i] != s.stages[i] ::
         && !s.stages[i].Stamped? && !m.stages[i].Unfinished? && (IsDone(s.stages[i]) ==> IsDone(m.stages[i]))
         && m.stages[i].at == if s.stages[i].Unfinished? then m.clock else s.stages[i].at
  }

  lemma AdvanceKeepsPhase(s: State, m: State)
    requires Times(s) && Times(m) && PhaseFits(s) && ClientFits(s) && Advances(s, m)
    requires forall i | 0 <= i < |s.stages| && s.stages[i].Unfinished? && !m.stages[i].Unfinished? :: m.clock > s.clock
    ensures PhaseFits(m)
  {
    forall i, t: nat | t <= s.clock ensures Before(m.stages, i, t) <==> Before(s.stages, i, t) { }
    assert forall i | 0 <= i < |s.stages| && IsDone(s.stages[i]) :: IsDone(m.stages[i]);
  }

  lemma AdvanceKeepsClient(s: State, m: State)
    requires Times(s) && ClientFits(s) && Advances(s, m)
    requires forall i | 0 <= i < |s.stages| && s.stages[i].Unfinished? && !m.stages[i].Unfinished? :: m.clock > s.clock
    ensures ClientFits(m)
  {
    forall i ensures Before(m.stages, i, s.last) <==> Before(s.stages, i, s.last) { }
    assert forall i | 0 <= i < |s.stages| && IsDone(s.stages[i]) :: IsDone(m.stages[i]);
  }

  /** A chunk moves on: nothing the client or the scan relies on is lost. */
  lemma ChunkStepKeepsInv(s: State, a: Action)
    requires Inv(s) && Enabled(s, a) && (a.Take? || a.Publish? || a.Stamp? || a.Finish?)
    ensures Inv(Next(s, a))
  {
    var m := Next(s, a);
    NextKeepsTimes(s, a);
    hide Times, PhaseFits, ClientFits;
    assert Advances(s, m);
    AdvanceKeepsPhase(s, m);
    AdvanceKeepsClient(s, m);
  }

  lemma PollStepKeepsInv(s: State, a: Action)
    requires Inv(s) && Enabled(s, a) && (a.Complete? || a.Ask? || a.Check? || a.Send? || a.Lose?)
    ensures Inv(Next(s, a))
  {
  }

  lemma ScanKeepsInv(s: State)
    requires Inv(s) && Enabled(s, Scan)
    ensures Inv(Next(s, Scan))
  {
  }

  lemma DeliverKeepsInv(s: State)
    requires Inv(s) && Enabled(s, Deliver)
    ensures Inv(Next(s, Deliver))
  {
  }

  lemma NextKeepsInv(s: State, a: Action)
    requires Inv(s) && Enabled(s, a)
    ensures Inv(Next(s, a))
  {
    hide Inv, Enabled, Next;
    match a {
      case Take(_) => ChunkStepKeepsInv(s, a);
      case Publish(_) => ChunkStepKeepsInv(s, a);
      case Stamp(_) => ChunkStepKeepsInv(s, a);
      case Finish(_) => ChunkStepKeepsInv(s, a);
      case Scan => ScanKeepsInv(s);
      case Deliver => DeliverKeepsInv(s);
      case _ => PollStepKeepsInv(s, a);
    }
  }

  lemma {:induction false} RunHolds(states: seq<State>, actions: seq<Action>, k: nat)
    requires Run(states, actions) && k < |states|
    ensures Inv(states[k])
  {
    if k > 0 {
      RunHolds(states, actions, k - 1);
      assert Leads(states[k - 1], actions[k - 1], states[k - 1 + 1]);
      hide Inv, Enabled, Next;
      NextKeepsInv(states[k - 1], actions[k - 1]);
    }
  }

  // Results -------------------------------------------------------------------------

  /** In every run, with answers lost at any point and chunks finishing during a scan: the client marks
      only Done chunks, and a chunk whose stamp is no later than the last delivered answer is marked if
      and only if no delivered scan passed it between its stamp and the store of that stamp. */
  lemma MarkedIff(states: seq<State>, actions: seq<Action>, k: nat, i: nat)
    requires Run(states, actions) && k < |states| && Before(states[k].stages, i, states[k].last)
    ensures var s := states[k];
            && (i in s.marked ==> IsDone(s.stages[i]))
            && (!s.told ==> (i in s.marked <==> i !in s.late))
            && (s.told ==> i in s.marked)
  {
    hide Run, Times, PhaseFits;
    RunHolds(states, actions, k);
  }

  /** A chunk that a delivered scan has passed too early is never reported by a later one: only a
      complete answer brings it. */
  lemma {:induction false} LateStaysUnmarked(states: seq<State>, actions: seq<Action>, j: nat, k: nat, i: nat)
    requires Run(states, actions) && j <= k < |states| && i in states[j].late && !states[k].told
    ensures i in states[k].late && i !in states[k].marked
    decreases k - j
  {
    if j < k {
      assert Leads(states[k - 1], actions[k - 1], states[k - 1 + 1]);
      LateStaysUnmarked(states, actions, j, k - 1, i);
    }
    RunHolds(states, actions, k);
    hide Run, Times, PhaseFits;
    assert Before(states[k].stages, i, states[k].last);
  }

  /** A poll of a completed peer, once delivered, marks every chunk, whatever was missed before. */
  lemma OneCompleteAnswerSuffices(s: State)
    requires Inv(s) && s.phase.Idle? && s.completed
    ensures Enabled(s, Ask) && Enabled(Next(s, Ask), Check) && Enabled(Next(Next(s, Ask), Check), Deliver)
    ensures Next(Next(Next(s, Ask), Check), Deliver).marked == AllBelow(|s.stages|)
  {
    var t := Next(Next(s, Ask), Check);
    NextKeepsInv(s, Ask);
    NextKeepsInv(Next(s, Ask), Check);
    NextKeepsInv(t, Deliver);
    assert t.phase.Answered? && t.phase.all;
    hide Times, PhaseFits;
  }

  // Stamp and publish as one step ------------------------------------------------------

  ghost predicate AtomicInv(s: State) {
    && (forall i | 0 <= i < |s.stages| :: s.stages[i].Unfinished? || s.stages[i].Stamped?)
    && s.late == s.missed == {} && s.full == s.marked
    && (s.phase.Scanning? || s.phase.Answered? ==> s.seen <= s.phase.list + s.marked)
  }

  lemma NextKeepsAtomicInv(s: State, a: Action)
    requires Inv(s) && AtomicInv(s) && Enabled(s, a) && !a.Take?
    ensures AtomicInv(Next(s, a))
  {
  }

  lemma {:induction false} AtomicRunHolds(states: seq<State>, actions: seq<Action>, k: nat)
    requires Run(states, actions) && k < |states| && forall j | 0 <= j < k :: !actions[j].Take?
    ensures AtomicInv(states[k])
  {
    if k > 0 {
      AtomicRunHolds(states, actions, k - 1);
      RunHolds(states, actions, k - 1);
      assert Leads(states[k - 1], actions[k - 1], states[k - 1 + 1]);
      hide Inv, AtomicInv, Enabled, Next;
      NextKeepsAtomicInv(states[k - 1], actions[k - 1]);
    }
  }

  /** If the stamp is taken, published and stored in one step, delta polling refines full polling: after
      every delivered answer the client has marked exactly what a client that asks for the full list
      each time would have, and that includes every chunk stamped no later than the answer. */
  lemma AtomicDeltaIsFull(states: seq<State>, actions: seq<Action>, k: nat, i: nat)
    requires Run(states, actions) && k < |states| && forall j | 0 <= j < k :: !actions[j].Take?
    ensures states[k].marked == states[k].full
    ensures Before(states[k].stages, i, states[k].last) ==> i in states[k].marked
  {
    AtomicRunHolds(states, actions, k);
    hide AtomicInv, Run;
    if Before(states[k].stages, i, states[k].last) {
      MarkedIff(states, actions, k, i);
    }
  }

  // The code as it is ----------------------------------------------------------------------

  function LastState(states: seq<State>): State
    requires states != []
  {
    states[|states| - 1]
  }

  lemma Extend(states: seq<State>, actions: seq<Action>, a: Action)
    requires Run(states, actions) && Enabled(LastState(states), a)
    ensures Run(states + [Next(LastState(states), a)], actions + [a])
  {
    hide Enabled, Next;
  }

  /** A poll passes a chunk whose stamp has been taken and not stored. */
  lemma PassedTooEarly() returns (states: seq<State>, actions: seq<Action>)
    ensures Run(states, actions)
    ensures var s := LastState(states);
            && s.stages == [Taken(1), Unfinished] && s.last == 2 && s.phase.Idle?
            && s.marked == {} && s.late == {0} && !s.told
  {
    var none: set<nat> := {};
    states, actions := [State([Unfinished, Unfinished], 0, false, Idle, none, 0, none, none, none, none, false)], [];
    assert Run(states, actions);
    hide Run;
    states, actions := More(states, actions, Take(0));
    states, actions := More(states, actions, Ask);
    states, actions := More(states, actions, Check);
    states, actions := PassesBoth(states, actions);
  }

  /** The scan of both chunks and its delivery. */
  lemma PassesBoth(before: seq<State>, taken: seq<Action>) returns (states: seq<State>, actions: seq<Action>)
    requires Run(before, taken)
    requires LastState(before) == State([Taken(1), Unfinished], 2, false, Scanning(0, 2, 0, {}), {}, 0, {}, {}, {}, {}, false)
    ensures Run(states, actions)
    ensures var s := LastState(states);
            && s.stages == [Taken(1), Unfinished] && s.last == 2 && s.phase.Idle?
            && s.marked == {} && s.late == {0} && !s.told
  {
    hide Run;
    states, actions := before, taken;
    states, actions := More(states, actions, Scan);
    states, actions := More(states, actions, Scan);
    states, actions := More(states, actions, Send);
    states, actions := More(states, actions, Deliver);
  }

  /** Chunk 0 is stamped before a poll and published after the scan has passed it. That poll does not
      report it, and by `LateStaysUnmarked` no later poll does until the peer is completed. */
  lemma DeltaCanMissAChunk() returns (states: seq<State>, actions: seq<Action>)
    ensures Run(states, actions)
    ensures var s := LastState(states);
            s.stages == [Stamped(1), Unfinished] && s.last == 2 && s.phase.Idle? && s.marked == {} && s.late == {0} && !s.told
  {
    states, actions := PassedTooEarly();
    hide Run;
    states, actions := More(states, actions, Publish(0));
    states, actions := More(states, actions, Stamp(0));
  }

  lemma More(states: seq<State>, actions: seq<Action>, a: Action) returns (states': seq<State>, actions': seq<Action>)
    requires Run(states, actions) && Enabled(LastState(states), a)
    ensures Run(states', actions') && LastState(states') == Next(LastState(states), a)
  {
    states', actions' := states + [Next(LastState(states), a)], actions + [a];
    Extend(states, actions, a);
  }
}
