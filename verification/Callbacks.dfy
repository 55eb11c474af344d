/** The counter of each file's remaining ranges and its callback, over every run of a node
    (src/transfer/chunk_manager.go:67-84, src/types/entry.go:62-68). */
module Callbacks {
  import opened Planning
  import opened Plans
  import opened Storing
  import opened ChunkWriting
  import opened Nodes
  import opened Options
  import opened NodeSteps

  // The ranges of a file -------------------------------------------------------

  /** Range `e.1` of chunk `e.0` belongs to `file`. */
  predicate IsRangeOf(plan: seq<Chunk>, file: nat, e: (nat, nat)) {
    e.0 < |plan| && e.1 < |plan[e.0]| && plan[e.0][e.1].fileIndex == file
  }

  ghost function RangesInChunk(i: nat, c: Chunk, file: nat): (r: set<(nat, nat)>)
    ensures forall e :: e in r <==> e.0 == i && e.1 < |c| && c[e.1].fileIndex == file
  {
    if c == [] then {}
    else
      var n := |c| - 1;
      RangesInChunk(i, c[..n], file) + if c[n].fileIndex == file then {(i, n)} else {}
  }

  lemma {:induction false} SizeInChunk(i: nat, c: Chunk, file: nat)
    ensures |RangesInChunk(i, c, file)| == Mentions(c, file)
  {
    if c != [] {
      var n := |c| - 1;
      SizeInChunk(i, c[..n], file);
      assert c == c[..n] + [c[n]];
      MentionsAppend(c[..n], c[n], file);
    }
  }

  ghost function RangesOf(plan: seq<Chunk>, file: nat): (r: set<(nat, nat)>)
    ensures |r| == RangeCount(plan, file)
    ensures forall e :: e in r <==> IsRangeOf(plan, file, e)
  {
    if plan == [] then {}
    else
      var n := |plan| - 1;
      RangeCountAppend(plan[..n], plan[n], file);
      assert plan == plan[..n] + [plan[n]];
      SizeInChunk(n, plan[n], file);
      RangesOf(plan[..n], file) + RangesInChunk(n, plan[n], file)
  }

  // The log ----------------------------------------------------------------------

  /** How many of the finished range writes were of `file`. */
  function Finished(plan: seq<Chunk>, log: seq<(nat, nat)>, file: nat): nat {
    if log == [] then 0
    else Finished(plan, log[..|log| - 1], file) + if IsRangeOf(plan, file, log[|log| - 1]) then 1 else 0
  }

  ghost function FinishedRanges(plan: seq<Chunk>, log: seq<(nat, nat)>, file: nat): set<(nat, nat)> {
    set e | e in log && IsRangeOf(plan, file, e)
  }

  /** No range of `file` was finished twice. */
  ghost predicate EachOnce(plan: seq<Chunk>, log: seq<(nat, nat)>, file: nat) {
    forall j, k | 0 <= j < k < |log| && IsRangeOf(plan, file, log[j]) :: log[j] != log[k]
  }

  ghost predicate AllFinished(plan: seq<Chunk>, log: seq<(nat, nat)>, file: nat) {
    forall e | IsRangeOf(plan, file, e) :: e in log
  }

  lemma EachOnceAppend(plan: seq<Chunk>, log: seq<(nat, nat)>, e: (nat, nat), file: nat)
    ensures EachOnce(plan, log + [e], file) <==> EachOnce(plan, log, file) && (IsRangeOf(plan, file, e) ==> e !in log)
  {
    hide IsRangeOf;
    var more := log + [e];
    if EachOnce(plan, more, file) {
      forall j, k | 0 <= j < k < |log| && IsRangeOf(plan, file, log[j]) ensures log[j] != log[k] {
        assert more[j] != more[k];
      }
      forall j | 0 <= j < |log| && IsRangeOf(plan, file, log[j]) ensures log[j] != e {
        assert more[j] != more[|log|];
      }
    }
    if EachOnce(plan, log, file) && (IsRangeOf(plan, file, e) ==> e !in log) {
      forall j, k | 0 <= j < k < |more| && IsRangeOf(plan, file, more[j]) ensures more[j] != more[k] {
        if k < |log| { assert log[j] != log[k]; }
      }
    }
  }

  lemma {:induction false} FinishedIsSize(plan: seq<Chunk>, log: seq<(nat, nat)>, file: nat)
    ensures |FinishedRanges(plan, log, file)| <= Finished(plan, log, file)
    ensures |FinishedRanges(plan, log, file)| == Finished(plan, log, file) <==> EachOnce(plan, log, file)
  {
    if log != [] {
      var n := |log| - 1;
      var e, before := log[n], FinishedRanges(plan, log[..n], file);
      FinishedIsSize(plan, log[..n], file);
      EachOnceAppend(plan, log[..n], e, file);
      assert log == log[..n] + [e];
      hide IsRangeOf, EachOnce;
      assert FinishedRanges(plan, log, file) == before + if IsRangeOf(plan, file, e) then {e} else {};
    }
  }

  /** When as many range writes of a file have finished as it has ranges, all its ranges are written
      if and only if none was counted twice. */
  lemma AllFinishedIff(plan: seq<Chunk>, log: seq<(nat, nat)>, file: nat)
    requires Finished(plan, log, file) == RangeCount(plan, file)
    ensures AllFinished(plan, log, file) <==> EachOnce(plan, log, file)
  {
    var some, all := FinishedRanges(plan, log, file), RangesOf(plan, file);
    FinishedIsSize(plan, log, file);
    assert some <= all;
    if AllFinished(plan, log, file) {
      assert some == all;
    } else {
      var e :| IsRangeOf(plan, file, e) && e !in log;
      assert some <= all - {e};
      SubsetSize(some, all - {e});
    }
  }

  lemma {:induction false} SubsetSize<T>(a: set<T>, b: set<T>)
    requires a <= b
    ensures |a| <= |b|
  {
    if a != {} {
      var x :| x in a;
      SubsetSize(a - {x}, b - {x});
    }
  }

  // The counter --------------------------------------------------------------------

  /** Every file's counter is its number of ranges minus its finished range writes, failed attempts
      included; and its callback has run exactly once if that many writes have finished, else never. */
  ghost predicate CounterHolds(plan: seq<Chunk>, t: Tally, log: seq<(nat, nat)>, f: nat)
    requires f < |t.remaining|
  {
    && t.remaining[f] == RangeCount(plan, f) - Finished(plan, log, f)
    && multiset(t.completed)[f] == if 0 < RangeCount(plan, f) <= Finished(plan, log, f) then 1 else 0
  }

  ghost predicate TallyHolds(plan: seq<Chunk>, t: Tally, log: seq<(nat, nat)>) {
    forall f | 0 <= f < |t.remaining| :: CounterHolds(plan, t, log, f)
  }

  lemma HasRanges(plan: seq<Chunk>, f: nat, e: (nat, nat))
    requires IsRangeOf(plan, f, e)
    ensures RangeCount(plan, f) > 0
  {
    assert e in RangesOf(plan, f);
  }

  lemma FinishKeepsTally(plan: seq<Chunk>, t: Tally, log: seq<(nat, nat)>, e: (nat, nat))
    requires TallyHolds(plan, t, log) && e.0 < |plan| && e.1 < |plan[e.0]|
    ensures TallyHolds(plan, FinishRange(t, plan[e.0][e.1].fileIndex), log + [e])
  {
    var g := plan[e.0][e.1].fileIndex;
    var t' := FinishRange(t, g);
    HasRanges(plan, g, e);
    forall f | 0 <= f < |t'.remaining| ensures CounterHolds(plan, t', log + [e], f) {
      assert CounterHolds(plan, t, log, f);
      assert (log + [e])[..|log|] == log;
      hide RangeCount;
    }
  }

  lemma NextKeepsTally(c: Config, n: Node, a: Action)
    requires Inv(c, n) && Enabled(c, n, a) && TallyHolds(c.plan, n.tally, n.log)
    ensures TallyHolds(c.plan, Next(c, n, a).tally, Next(c, n, a).log)
  {
    hide TallyHolds;
    if a.EndRange? {
      var w := PcOf(n, a.d, a.t);
      FinishKeepsTally(c.plan, n.tally, n.log, (w.i, w.k));
    } else {
      NextLog(c, n, a);
    }
  }

  /** Only the end of a range is logged. */
  lemma NextLog(c: Config, n: Node, a: Action)
    requires Inv(c, n) && Enabled(c, n, a) && !a.EndRange?
    ensures Next(c, n, a).log == n.log && Next(c, n, a).tally == n.tally
  {
    if a.Step? {
      hide Inv, CanStep, DoStep;
      CanStepFacts(c, n, a.d, a.t);
      var to := StepMoves(c, n, a.d, a.t);
    } else {
      hide Inv, Enabled, Verdict, Put, Bound, Addrs;
    }
  }

  // Clean runs -----------------------------------------------------------------------

  /** The step does not fail an attempt that has already finished a range. */
  ghost predicate FailsCleanly(c: Config, n: Node, a: Action) {
    match a
    case Fail(d, t) => Thread(n, d, t) && PcOf(n, d, t).Writing? ==> PcOf(n, d, t).k == 0
    case CheckSum(d, t) =>
      Thread(n, d, t) && PcOf(n, d, t).Writing? && Verdict(c, PcOf(n, d, t)).Failing? ==> PcOf(n, d, t).k == 0
    case _ => true
  }

  /** How many ranges of its chunk an attempt has finished. */
  ghost function Written(c: Config, pc: Pc): nat {
    match pc
    case Writing(i, k, _, _) => k
    case Checked(i, _) => if i < |c.plan| then |c.plan[i]| else 0
    case Publishing(i) => if i < |c.plan| then |c.plan[i]| else 0
    case _ => 0
  }

  ghost function Progress(c: Config, n: Node, i: nat): nat
    requires i < |c.plan|
  {
    if IsDone(n.status, i) then |c.plan[i]|
    else if i in n.owner && Thread(n, n.owner[i].0, n.owner[i].1) then Written(c, PcOf(n, n.owner[i].0, n.owner[i].1))
    else 0
  }

  /** The log lists the ranges of the Done chunks and of the attempts under way, each once. */
  ghost predicate CleanLog(c: Config, n: Node) {
    && NoDuplicates(n.log)
    && forall i: nat, k: nat :: (i, k) in n.log <==> i < |c.plan| && k < Progress(c, n, i)
  }

  ghost predicate SameOwner(n: Node, m: Node, i: nat) {
    (i in m.owner <==> i in n.owner) && (i in n.owner ==> m.owner[i] == n.owner[i])
  }

  /** The owner of chunk `i` has written as much as before. */
  lemma SameProgress(c: Config, n: Node, m: Node, d: nat, t: nat, to: Pc, i: nat)
    requires i < |c.plan| && (IsDone(m.status, i) <==> IsDone(n.status, i)) && SameOwner(n, m, i) && Thread(n, d, t)
    requires |m.ds| == |n.ds| && m.ds == n.ds[d := m.ds[d]] && m.ds[d].threads == n.ds[d].threads[t := to]
    requires i in n.owner && n.owner[i] == (d, t) ==> Written(c, to) == Written(c, PcOf(n, d, t))
    ensures Progress(c, m, i) == Progress(c, n, i)
  {
    hide Written, IsDone;
  }

  lemma OwnerFacts(c: Config, n: Node, i: nat)
    requires Inv(c, n) && i in n.owner
    ensures i < |n.status| && n.status[i].Downloading? && Thread(n, n.owner[i].0, n.owner[i].1)
    ensures Claim(PcOf(n, n.owner[i].0, n.owner[i].1)) == Some(i)
  {
  }

  lemma ClaimerOwns(c: Config, n: Node, d: nat, t: nat, i: nat)
    requires Inv(c, n) && Thread(n, d, t) && Claim(PcOf(n, d, t)) == Some(i)
    ensures i in n.owner && n.owner[i] == (d, t) && i < |n.status| == |c.plan| && n.status[i].Downloading?
  {
  }

  /** A step that claims or releases chunk `i` finds and leaves the progress that the status says. */
  lemma OwnStepProgress(c: Config, n: Node, d: nat, t: nat, i: nat)
    requires Inv(c, n) && Enabled(c, n, Step(d, t)) && i < |c.plan| == |n.status|
    requires var pc := PcOf(n, d, t); pc == Publishing(i) || pc == Failing(i) || (pc == Claiming(i) && n.status[i].Pending?)
    ensures Progress(c, DoStep(c, n, d, t), i) == Progress(c, n, i)
  {
    hide Inv, Enabled, Progress, DoStep, CanStep;
    CanStepFacts(c, n, d, t);
    if PcOf(n, d, t).Claiming? {
      if i in n.owner { OwnerFacts(c, n, i); }
      ClaimProgress(c, n, d, t, i);
    } else {
      ClaimerOwns(c, n, d, t, i);
      ReleaseProgress(c, n, d, t, i);
    }
  }

  lemma ClaimProgress(c: Config, n: Node, d: nat, t: nat, i: nat)
    requires Steps(n, d, t) && i < |c.plan| == |n.status|
    requires PcOf(n, d, t) == Claiming(i) && n.status[i].Pending? && i !in n.owner
    ensures Progress(c, DoStep(c, n, d, t), i) == Progress(c, n, i)
  {
  }

  lemma ReleaseProgress(c: Config, n: Node, d: nat, t: nat, i: nat)
    requires Steps(n, d, t) && i < |c.plan| == |n.status| && (PcOf(n, d, t) == Publishing(i) || PcOf(n, d, t) == Failing(i))
    requires i in n.owner && n.owner[i] == (d, t) && n.status[i].Downloading?
    ensures Progress(c, DoStep(c, n, d, t), i) == Progress(c, n, i)
  {
  }

  lemma StepProgress(c: Config, n: Node, d: nat, t: nat, i: nat)
    requires Inv(c, n) && Enabled(c, n, Step(d, t)) && i < |c.plan| == |n.status|
    ensures Progress(c, DoStep(c, n, d, t), i) == Progress(c, n, i)
  {
    hide Inv, CanStep, DoStep, Enabled, Progress;
    CanStepFacts(c, n, d, t);
    var pc, m := PcOf(n, d, t), DoStep(c, n, d, t);
    if pc == Publishing(i) || pc == Failing(i) || (pc == Claiming(i) && n.status[i].Pending?) {
      OwnStepProgress(c, n, d, t, i);
    } else {
      var to := StepMoves(c, n, d, t);
      StepDone(n, m.status, pc, i);
      if i in n.owner { OwnerFacts(c, n, i); }
      SameProgress(c, n, m, d, t, to, i);
    }
  }

  /** Setting up, polling, raising flags and caching: no progress changes. */
  lemma OtherProgress(c: Config, n: Node, a: Action, i: nat)
    requires Inv(c, n) && Enabled(c, n, a) && i < |c.plan|
    requires a.Spawn? || a.Invalidate? || a.Cancel? || a.Poll? || a.FillCache?
    ensures Progress(c, Next(c, n, a), i) == Progress(c, n, i)
  {
    OthersMoveNothing(c, n, a);
    if i in n.owner { OwnerFacts(c, n, i); }
    hide Inv, Enabled, Written, Next, IsDone;
  }

  lemma OthersMoveNothing(c: Config, n: Node, a: Action)
    requires Shape(c, n) && Enabled(c, n, a)
    requires a.Spawn? || a.Invalidate? || a.Cancel? || a.Poll? || a.FillCache?
    ensures var m := Next(c, n, a);
            && m.status == n.status && m.owner == n.owner
            && forall d: nat, t: nat | Thread(n, d, t) :: Thread(m, d, t) && PcOf(m, d, t) == PcOf(n, d, t)
  {
    hide Shape;
  }

  /** A clean step of a transfer finishes no range and forgets none. */
  lemma TransferWritten(c: Config, n: Node, a: Action)
    requires OfTransfer(a) && !a.EndRange? && Enabled(c, n, a) && FailsCleanly(c, n, a)
    ensures Written(c, TransferTarget(c, n, a)) == Written(c, PcOf(n, a.d, a.t))
  {
    hide Bound, Accepted;
  }

  lemma TransferProgress(c: Config, n: Node, a: Action, i: nat)
    requires Shape(c, n) && OfTransfer(a) && !a.EndRange?
    requires Enabled(c, n, a) && FailsCleanly(c, n, a) && i < |c.plan|
    ensures Progress(c, Next(c, n, a), i) == Progress(c, n, i)
  {
    hide Shape, Enabled, FailsCleanly, Next, Progress, Written, TransferTarget;
    TransferWritten(c, n, a);
    TransferMoves(c, n, a);
    SameProgress(c, n, Next(c, n, a), a.d, a.t, TransferTarget(c, n, a), i);
  }

  lemma HandOverMoves(n: Node, d: nat, t: nat)
    requires Thread(n, d, 0) && Thread(n, d, t) && PcOf(n, d, 0).Sending? && PcOf(n, d, t).Waiting?
    ensures var m, i := DoHandOver(n, d, t), PcOf(n, d, 0).i;
            && m.status == n.status && m.owner == n.owner[i := (d, t)]
            && Thread(m, d, t) && PcOf(m, d, t) == Received(i)
            && (forall e: nat, u: nat :: Thread(m, e, u) == Thread(n, e, u))
            && (forall e: nat, u: nat | Thread(n, e, u) && (e, u) != (d, t) && (e, u) != (d, 0) :: PcOf(m, e, u) == PcOf(n, e, u))
  {
  }

  lemma HandOverProgress(c: Config, n: Node, d: nat, t: nat, i: nat)
    requires Inv(c, n) && i < |c.plan| && Thread(n, d, 0) && Thread(n, d, t)
    requires PcOf(n, d, 0).Sending? && PcOf(n, d, t).Waiting?
    ensures Progress(c, DoHandOver(n, d, t), i) == Progress(c, n, i)
  {
    hide Inv, DoHandOver, Thread, PcOf, IsDone;
    HandOverMoves(n, d, t);
    ClaimerOwns(c, n, d, 0, PcOf(n, d, 0).i);
    if i in n.owner { OwnerFacts(c, n, i); }
  }

  lemma EndRangeOwnProgress(c: Config, n: Node, m: Node, d: nat, t: nat)
    requires Inv(c, n) && Thread(n, d, t) && PcOf(n, d, t).Writing? && PcOf(n, d, t).i < |c.plan|
    requires m.status == n.status && m.owner == n.owner && |m.ds| == |n.ds| && m.ds == n.ds[d := m.ds[d]]
    requires var w := PcOf(n, d, t);
             m.ds[d].threads == n.ds[d].threads[t := Writing(w.i, w.k + 1, w.got, w.expected)]
    ensures var w := PcOf(n, d, t); Progress(c, n, w.i) == w.k && Progress(c, m, w.i) == w.k + 1
  {
    ClaimerOwns(c, n, d, t, PcOf(n, d, t).i);
    hide Inv, Claim, Progress;
    OwnersProgress(c, n, d, t, PcOf(n, d, t).i);
    OwnersProgress(c, m, d, t, PcOf(n, d, t).i);
  }

  lemma OwnersProgress(c: Config, n: Node, d: nat, t: nat, i: nat)
    requires i < |c.plan| && i in n.owner && n.owner[i] == (d, t) && Thread(n, d, t) && !IsDone(n.status, i)
    ensures Progress(c, n, i) == Written(c, PcOf(n, d, t))
  {
  }

  lemma EndRangeOtherProgress(c: Config, n: Node, m: Node, d: nat, t: nat, to: Pc, i: nat)
    requires Inv(c, n) && Thread(n, d, t) && PcOf(n, d, t).Writing? && i != PcOf(n, d, t).i && i < |c.plan|
    requires m.status == n.status && m.owner == n.owner && |m.ds| == |n.ds| && m.ds == n.ds[d := m.ds[d]]
    requires m.ds[d].threads == n.ds[d].threads[t := to]
    ensures Progress(c, m, i) == Progress(c, n, i)
  {
    hide Inv, Progress, Written, IsDone;
    if i in n.owner { OwnerFacts(c, n, i); }
    SameProgress(c, n, m, d, t, to, i);
  }

  lemma EndRangeTarget(c: Config, n: Node, d: nat, t: nat)
    requires Enabled(c, n, EndRange(d, t))
    ensures Thread(n, d, t) && PcOf(n, d, t).Writing? && PcOf(n, d, t).i < |c.plan|
    ensures var w := PcOf(n, d, t);
            TransferTarget(c, n, EndRange(d, t)) == Writing(w.i, w.k + 1, w.got, w.expected)
  {
    hide Bound;
  }

  lemma EndRangeProgress(c: Config, n: Node, d: nat, t: nat, i: nat)
    requires Inv(c, n) && Enabled(c, n, EndRange(d, t)) && i < |c.plan|
    ensures Progress(c, Next(c, n, EndRange(d, t)), i) == Progress(c, n, i) + if i == PcOf(n, d, t).i then 1 else 0
    ensures i == PcOf(n, d, t).i ==> Progress(c, n, i) == PcOf(n, d, t).k
  {
    hide Shape, Tokens, Owners, Counts, Enabled, Next, Progress, TransferTarget, Thread, PcOf;
    EndRangeTarget(c, n, d, t);
    TransferMoves(c, n, EndRange(d, t));
    hide Inv;
    var w, m := PcOf(n, d, t), Next(c, n, EndRange(d, t));
    EndRangeOwnProgress(c, n, m, d, t);
    if i != w.i { EndRangeOtherProgress(c, n, m, d, t, Writing(w.i, w.k + 1, w.got, w.expected), i); }
  }

  lemma NextKeepsCleanLog(c: Config, n: Node, a: Action)
    requires Inv(c, n) && Enabled(c, n, a) && FailsCleanly(c, n, a) && CleanLog(c, n)
    ensures CleanLog(c, Next(c, n, a))
  {
    var m := Next(c, n, a);
    hide Inv, Next, Progress, Enabled, FailsCleanly;
    if a.EndRange? {
      EndRangeKeepsCleanLog(c, n, a.d, a.t);
    } else {
      NextLog(c, n, a);
      forall i: nat | i < |c.plan| ensures Progress(c, m, i) == Progress(c, n, i) {
        NextProgress(c, n, a, i);
      }
    }
  }

  lemma NextProgress(c: Config, n: Node, a: Action, i: nat)
    requires Inv(c, n) && Enabled(c, n, a) && FailsCleanly(c, n, a) && !a.EndRange? && i < |c.plan|
    ensures Progress(c, Next(c, n, a), i) == Progress(c, n, i)
  {
    assert |n.status| == |c.plan| && Shape(c, n) by { hide Tokens, Owners, Counts, DownloaderFits; }
    hide Inv, Progress, FailsCleanly, Shape;
    match a {
      case Step(d, t) => StepProgress(c, n, d, t, i);
      case HandOver(d, t) => HandOverProgress(c, n, d, t, i);
      case Reply(_, _, _) => TransferProgress(c, n, a, i);
      case Receive(_, _, _) => TransferProgress(c, n, a, i);
      case CheckSum(_, _) => TransferProgress(c, n, a, i);
      case Fail(_, _) => TransferProgress(c, n, a, i);
      case _ => OtherProgress(c, n, a, i);
    }
  }

  lemma LogGrows(c: Config, n: Node, m: Node, i0: nat, k0: nat)
    requires CleanLog(c, n) && m.log == n.log + [(i0, k0)] && i0 < |c.plan| && Progress(c, n, i0) == k0
    requires forall i: nat | i < |c.plan| :: Progress(c, m, i) == Progress(c, n, i) + if i == i0 then 1 else 0
    ensures CleanLog(c, m)
  {
    hide Progress;
    assert (i0, k0) !in n.log;
    assert forall e :: e in m.log <==> e in n.log || e == (i0, k0);
    assert NoDuplicates(m.log) by {
      assert forall j | 0 <= j < |n.log| :: n.log[j] in n.log;
    }
    hide NoDuplicates;
  }

  lemma EndRangeKeepsCleanLog(c: Config, n: Node, d: nat, t: nat)
    requires Inv(c, n) && Enabled(c, n, EndRange(d, t)) && CleanLog(c, n)
    ensures CleanLog(c, Next(c, n, EndRange(d, t)))
  {
    var w, m := PcOf(n, d, t), Next(c, n, EndRange(d, t));
    assert w.i < |c.plan|;
    TransferMoves(c, n, EndRange(d, t));
    hide Inv, Progress, Enabled, Next, CleanLog;
    forall i: nat | i < |c.plan| ensures Progress(c, m, i) == Progress(c, n, i) + if i == w.i then 1 else 0 {
      EndRangeProgress(c, n, d, t, i);
    }
    EndRangeProgress(c, n, d, t, w.i);
    LogGrows(c, n, m, w.i, w.k);
  }
}
