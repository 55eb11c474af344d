/** Every step of a node keeps its invariant. */
module NodeInvariants {
  import opened Names
  import opened Plans
  import opened Nodes
  import opened Options

  // Tokens of one downloader --------------------------------------------------

  lemma GotoKeepsTokens(dl: Downloader, t: nat, pc: Pc)
    requires TokensOf(dl) && t < |dl.threads| && Token(pc) == Token(dl.threads[t])
    ensures TokensOf(Goto(dl, t, pc))
  {
    hide NoDuplicates, Token;
  }

  lemma PopKeepsTokens(dl: Downloader, t: nat)
    requires TokensOf(dl) && t < |dl.threads| && dl.queue != [] && Token(dl.threads[t]).None?
    ensures TokensOf(Pop(dl, t))
  {
    var i, rest := dl.queue[0], dl.queue[1..];
    assert dl.queue == [i] + rest;
    assert i in dl.queue && i !in rest && NoDuplicates(rest);
    assert forall x :: x in dl.queue <==> x == i || x in rest;
  }

  lemma PushBackKeepsTokens(dl: Downloader, t: nat, i: nat)
    requires TokensOf(dl) && t < |dl.threads| && dl.threads[t] == PushingBack(i)
    ensures TokensOf(PushBack(dl, t, i))
  {
    assert i in dl.held && dl.held[i] == t;
  }

  lemma CountKeepsTokens(dl: Downloader, t: nat, i: nat)
    requires TokensOf(dl) && t < |dl.threads| && dl.threads[t] == Adding(i)
    ensures TokensOf(Count(dl, t, i))
  {
    assert i in dl.held && dl.held[i] == t;
  }

  lemma HandOverKeepsTokens(dl: Downloader, t: nat, i: nat)
    requires TokensOf(dl) && 0 < t < |dl.threads| && dl.threads[0] == Sending(i) && dl.threads[t].Waiting?
    ensures TokensOf(Goto(Goto(dl, 0, CheckValid), t, Received(i)).(held := dl.held[i := t]))
  {
    hide NoDuplicates;
    var threads := dl.threads[0 := CheckValid][t := Received(i)];
    assert i in dl.held && dl.held[i] == 0;
    assert Token(threads[0]).None? && Token(threads[t]) == Some(i);
    assert forall u | 0 < u < |threads| && u != t :: threads[u] == dl.threads[u];
    hide Token;
  }

  lemma PollKeepsTokens(dl: Downloader, list: seq<nat>)
    requires TokensOf(dl) && NoDuplicates(list) && forall i | i in list :: i !in dl.known
    ensures TokensOf(dl.(queue := dl.queue + list, known := dl.known + Elements(list)))
  {
    assert forall j | 0 <= j < |dl.queue| :: dl.queue[j] in dl.queue;
    assert forall j | 0 <= j < |list| :: list[j] in list;
    assert NoDuplicates(dl.queue + list);
  }

  lemma SpawnHasTokens(c: Config, kind: Kind, queue: seq<nat>, workers: nat)
    requires NoDuplicates(queue)
    ensures TokensOf(Downloader(kind, [FirstPc(c)] + seq(workers, _ => Waiting), queue, Elements(queue), true, 0, map[], {}))
  {
  }

  // Counting of one downloader ------------------------------------------------

  /** What other goroutines may change: chunks become Done, flags are raised. */
  ghost predicate Later(st: seq<Status>, cancelled: bool, completed: bool, st': seq<Status>, cancelled': bool, completed': bool) {
    && |st| == |st'| && (forall i | 0 <= i < |st| && st[i].Done? :: st'[i].Done?)
    && (cancelled ==> cancelled') && (completed ==> completed')
  }

  lemma LaterKeepsCounts(c: Config, st: seq<Status>, cancelled: bool, completed: bool,
                         st': seq<Status>, cancelled': bool, completed': bool, dl: Downloader)
    requires CountsOf(c, st, cancelled, completed, dl) && Later(st, cancelled, completed, st', cancelled', completed')
    ensures CountsOf(c, st', cancelled', completed', dl)
  {
  }

  /** A goroutine may go on to `pc`, as far as counting is concerned. */
  ghost predicate MayGoto(c: Config, n: Node, dl: Downloader, t: nat, pc: Pc)
    requires t < |dl.threads|
  {
    && (pc.Adding? ==> IsDone(n.status, pc.i))
    && (pc.Cancelling? || pc.Completing? ==> dl.numCompleted == |c.plan|)
    && (pc.Completing? ==> n.cancelled)
    && (InCompleteOne(dl.threads[t]) && dl.numCompleted == |c.plan| ==> n.completed || InCompleteOne(pc))
  }

  lemma GotoKeepsCounts(c: Config, n: Node, dl: Downloader, t: nat, pc: Pc)
    requires CountsOf(c, n.status, n.cancelled, n.completed, dl) && t < |dl.threads| && MayGoto(c, n, dl, t, pc)
    ensures CountsOf(c, n.status, n.cancelled, n.completed, Goto(dl, t, pc))
  {
    var to := Goto(dl, t, pc);
    if dl.numCompleted == |c.plan| && !n.completed {
      var u :| 0 <= u < |dl.threads| && InCompleteOne(dl.threads[u]);
      assert InCompleteOne(to.threads[u]);
    }
  }

  lemma CountKeepsCounts(c: Config, n: Node, dl: Downloader, t: nat, i: nat)
    requires CountsOf(c, n.status, n.cancelled, n.completed, dl) && t < |dl.threads| && dl.threads[t] == Adding(i)
    requires dl.numCompleted < |c.plan|
    ensures CountsOf(c, n.status, n.cancelled, n.completed, Count(dl, t, i))
  {
    var to := Count(dl, t, i);
    assert InCompleteOne(to.threads[t]);
  }

  // One downloader inside the node --------------------------------------------

  lemma WithKeepsTokens(n: Node, d: nat, dl: Downloader)
    requires Tokens(n) && d < |n.ds| && TokensOf(dl)
    ensures Tokens(With(n, d, dl))
  {
    hide TokensOf;
  }

  lemma WithKeepsCounts(c: Config, n: Node, d: nat, dl: Downloader)
    requires Counts(c, n) && d < |n.ds| && CountsOf(c, n.status, n.cancelled, n.completed, dl)
    ensures Counts(c, With(n, d, dl))
  {
    hide CountsOf;
  }

  lemma WithKeepsShape(c: Config, n: Node, d: nat, dl: Downloader)
    requires Shape(c, n) && d < |n.ds| && DownloaderFits(c, dl)
    ensures Shape(c, With(n, d, dl))
  {
    hide DownloaderFits;
  }

  /** The threads of one downloader move, all claims stay where they are. */
  lemma WithKeepsOwners(n: Node, d: nat, dl: Downloader)
    requires Owners(n) && d < |n.ds| && |dl.threads| == |n.ds[d].threads|
    requires forall t | 0 <= t < |dl.threads| :: Claim(dl.threads[t]) == Claim(n.ds[d].threads[t])
    ensures Owners(With(n, d, dl))
  {
    hide Claim;
    var m := With(n, d, dl);
    assert forall e: nat, t: nat | Thread(m, e, t) :: Thread(n, e, t) && Claim(PcOf(m, e, t)) == Claim(PcOf(n, e, t));
    assert forall e: nat, t: nat | Thread(n, e, t) :: Thread(m, e, t);
  }

  ghost predicate RoleFits(dl: Downloader, t: nat, pc: Pc)
    requires t < |dl.threads| && |dl.threads| > 0
  {
    && (if t == 0 then ForDispatcher(pc) else ForWorker(pc))
    && (t > 0 && pc.Exited? ==> dl.threads[0].Closing? || dl.threads[0].Exited?)
    && (t > 0 && dl.threads[0].Exited? ==> pc.Exited?)
    && (t == 0 && (dl.threads[0].Closing? || dl.threads[0].Exited?) ==> pc.Exited?)
    && (t == 0 && pc.Exited? ==> AllWorkersExited(dl))
  }

  lemma GotoFits(c: Config, dl: Downloader, t: nat, pc: Pc)
    requires DownloaderFits(c, dl) && t < |dl.threads| && PcFits(c, pc) && RoleFits(dl, t, pc)
    ensures DownloaderFits(c, Goto(dl, t, pc))
  {
    hide PcFits, ForDispatcher, ForWorker;
  }

  /** A goroutine goes on without touching a queue entry or a claim. */
  lemma JumpKeeps(c: Config, n: Node, d: nat, t: nat, pc: Pc)
    requires Inv(c, n) && Thread(n, d, t) && PcFits(c, pc)
    requires Token(pc) == Token(PcOf(n, d, t)) && Claim(pc) == Claim(PcOf(n, d, t))
    requires RoleFits(n.ds[d], t, pc) && MayGoto(c, n, n.ds[d], t, pc)
    ensures Inv(c, Jump(n, d, t, pc))
  {
    hide TokensOf, CountsOf, Token, Claim, MayGoto, RoleFits, DownloaderFits, PcFits;
    var dl := Goto(n.ds[d], t, pc);
    GotoKeepsTokens(n.ds[d], t, pc);
    GotoKeepsCounts(c, n, n.ds[d], t, pc);
    GotoFits(c, n.ds[d], t, pc);
    WithKeepsTokens(n, d, dl);
    WithKeepsCounts(c, n, d, dl);
    WithKeepsShape(c, n, d, dl);
    WithKeepsOwners(n, d, dl);
  }

  /** Chunks become Done only through `Publishing`; here only the flags, the cache, the store, the
      file counters and the log change. */
  lemma FlagsKeep(c: Config, n: Node, m: Node)
    requires Inv(c, n)
    requires m.ds == n.ds && m.status == n.status && m.owner == n.owner && m.writes == n.writes
    requires |m.cache| == |n.cache| && m.serveOnly == n.serveOnly
    requires (n.cancelled ==> m.cancelled) && (n.completed ==> m.completed)
    requires m.completed && !n.completed && !n.serveOnly ==> m.cancelled && forall i | 0 <= i < |n.status| :: n.status[i].Done?
    ensures Inv(c, m)
  {
    hide TokensOf, CountsOf, DownloaderFits;
    forall d | 0 <= d < |m.ds| ensures CountsOf(c, m.status, m.cancelled, m.completed, m.ds[d]) {
      LaterKeepsCounts(c, n.status, n.cancelled, n.completed, m.status, m.cancelled, m.completed, m.ds[d]);
    }
    hide Claim;
    assert forall d: nat, t: nat :: Thread(m, d, t) == Thread(n, d, t);
    assert forall d: nat, t: nat | Thread(n, d, t) :: PcOf(m, d, t) == PcOf(n, d, t);
  }

  // The steps that move queue entries or claims -------------------------------

  lemma PopKeeps(c: Config, n: Node, d: nat)
    requires Inv(c, n) && Thread(n, d, 0) && PcOf(n, d, 0).Popping? && n.ds[d].queue != []
    ensures Inv(c, With(n, d, Pop(n.ds[d], 0)))
  {
    var dl, i := n.ds[d], n.ds[d].queue[0];
    assert i in dl.queue && i in dl.known;
    assert Goto(dl, 0, Popped(i)).threads == Pop(dl, 0).threads;
    GotoFits(c, dl, 0, Popped(i));
    GotoKeepsCounts(c, n, dl, 0, Popped(i));
    Shifted(c, n, d, Pop(dl, 0), Goto(dl, 0, Popped(i)));
    PopKeepsTokens(dl, 0);
    WithKeepsTokens(n, d, Pop(dl, 0));
  }

  /** Like `Goto`, but the queue and the hand change as well. */
  lemma Shifted(c: Config, n: Node, d: nat, dl: Downloader, like: Downloader)
    requires Shape(c, n) && Owners(n) && Counts(c, n) && d < |n.ds|
    requires dl.threads == like.threads && dl.known == like.known
    requires dl.numCompleted == like.numCompleted && dl.counted == like.counted
    requires DownloaderFits(c, like) && CountsOf(c, n.status, n.cancelled, n.completed, like)
    requires |like.threads| == |n.ds[d].threads|
    requires forall t | 0 <= t < |like.threads| :: Claim(like.threads[t]) == Claim(n.ds[d].threads[t])
    ensures Shape(c, With(n, d, dl)) && Owners(With(n, d, dl)) && Counts(c, With(n, d, dl))
  {
    assert DownloaderFits(c, dl);
    assert CountsOf(c, n.status, n.cancelled, n.completed, dl);
    hide DownloaderFits, CountsOf, Claim;
    WithKeepsShape(c, n, d, dl);
    WithKeepsCounts(c, n, d, dl);
    WithKeepsOwners(n, d, dl);
  }

  lemma PushBackKeeps(c: Config, n: Node, d: nat, t: nat, i: nat)
    requires Inv(c, n) && Thread(n, d, t) && PcOf(n, d, t) == PushingBack(i)
    ensures Inv(c, With(n, d, PushBack(n.ds[d], t, i)))
  {
    hide TokensOf, CountsOf, DownloaderFits, Owners, Tokens, Shape, Counts;
    var dl := n.ds[d];
    InvOf(c, n, d);
    ThreadFacts(c, n, d, t);
    assert RoleFits(dl, t, Home(t)) && MayGoto(c, n, dl, t, Home(t));
    GotoFits(c, dl, t, Home(t));
    GotoKeepsCounts(c, n, dl, t, Home(t));
    Shifted(c, n, d, PushBack(dl, t, i), Goto(dl, t, Home(t)));
    PushBackKeepsTokens(dl, t, i);
    WithKeepsTokens(n, d, PushBack(dl, t, i));
  }

  /** The counter has not reached the chunk count while an index is still to be added. */
  lemma RoomToCount(c: Config, dl: Downloader, t: nat, i: nat)
    requires DownloaderFits(c, dl) && TokensOf(dl) && t < |dl.threads| && dl.threads[t] == Adding(i)
    ensures dl.numCompleted < |c.plan|
  {
    assert i in dl.held && i in dl.known && i !in dl.counted;
    FiniteBelow(dl.counted + {i}, |c.plan|);
  }

  lemma SameFits(c: Config, like: Downloader, dl: Downloader)
    requires DownloaderFits(c, like) && dl.threads == like.threads && dl.known == like.known
    ensures DownloaderFits(c, dl)
  {
  }

  lemma CountKeeps(c: Config, n: Node, d: nat, t: nat, i: nat)
    requires Inv(c, n) && Thread(n, d, t) && PcOf(n, d, t) == Adding(i)
    ensures Inv(c, With(n, d, Count(n.ds[d], t, i)))
  {
    hide TokensOf, CountsOf, DownloaderFits, Owners, Tokens, Shape, Counts;
    var dl := n.ds[d];
    var to := Count(dl, t, i);
    InvOf(c, n, d);
    ThreadFacts(c, n, d, t);
    RoomToCount(c, dl, t, i);
    GotoFits(c, dl, t, Loading);
    SameFits(c, Goto(dl, t, Loading), to);
    CountKeepsCounts(c, n, dl, t, i);
    CountKeepsTokens(dl, t, i);
    WithKeepsTokens(n, d, to);
    WithKeepsCounts(c, n, d, to);
    WithKeepsShape(c, n, d, to);
    WithKeepsOwners(n, d, to);
  }

  lemma PollKeeps(c: Config, n: Node, d: nat, list: seq<nat>)
    requires Inv(c, n) && Enabled(c, n, Poll(d, list))
    ensures Inv(c, Next(c, n, Poll(d, list)))
  {
    var dl := n.ds[d];
    var to := dl.(queue := dl.queue + list, known := dl.known + Elements(list));
    assert DownloaderFits(c, to) && CountsOf(c, n.status, n.cancelled, n.completed, to);
    PollKeepsTokens(dl, list);
    hide TokensOf, CountsOf, DownloaderFits;
    WithKeepsTokens(n, d, to);
    WithKeepsCounts(c, n, d, to);
    WithKeepsShape(c, n, d, to);
    WithKeepsOwners(n, d, to);
  }

  lemma InvalidateKeeps(c: Config, n: Node, d: nat)
    requires Inv(c, n) && d < |n.ds|
    ensures Inv(c, Next(c, n, Invalidate(d)))
  {
    var to := n.ds[d].(valid := false);
    assert DownloaderFits(c, to) && CountsOf(c, n.status, n.cancelled, n.completed, to) && TokensOf(to);
    hide TokensOf, CountsOf, DownloaderFits;
    WithKeepsTokens(n, d, to);
    WithKeepsCounts(c, n, d, to);
    WithKeepsShape(c, n, d, to);
    WithKeepsOwners(n, d, to);
  }

  // Claims --------------------------------------------------------------------

  lemma OneThreadMoves(n: Node, m: Node, d: nat, t: nat, pc: Pc)
    requires Thread(n, d, t) && m.ds == Jump(n, d, t, pc).ds
    ensures Thread(m, d, t) && PcOf(m, d, t) == pc
    ensures forall e: nat, u: nat :: Thread(m, e, u) == Thread(n, e, u)
    ensures forall e: nat, u: nat | Thread(n, e, u) && (e, u) != (d, t) :: PcOf(m, e, u) == PcOf(n, e, u)
  {
  }

  /** The compare-and-swap succeeds: the chunk was Pending, now this thread alone has it. */
  lemma ClaimKeepsOwners(n: Node, m: Node, d: nat, t: nat, i: nat)
    requires Owners(n) && Thread(n, d, t) && i < |n.status| && n.status[i].Pending?
    requires Claim(PcOf(n, d, t)).None?
    requires m.ds == Jump(n, d, t, Sending(i)).ds && m.status == n.status[i := Downloading] && m.owner == n.owner[i := (d, t)]
    ensures Owners(m)
  {
    assert Claim(Sending(i)) == Some(i);
    OneThreadMoves(n, m, d, t, Sending(i));
    assert i !in n.owner by { hide Claim, Thread, PcOf, Jump, ClaimsAreOwned; }
    hide Claim, Thread, PcOf, Jump;
    assert ClaimsAreOwned(m) by { hide OwnersHaveClaims; }
    hide ClaimsAreOwned;
  }

  /** The store of Done or Pending: the owner lets go of the chunk. */
  lemma ReleaseKeepsOwners(n: Node, m: Node, d: nat, t: nat, i: nat, pc: Pc, status: Status)
    requires Owners(n) && Thread(n, d, t) && i < |n.status| && Claim(PcOf(n, d, t)) == Some(i)
    requires Claim(pc).None? && !status.Downloading?
    requires m.ds == Jump(n, d, t, pc).ds && m.status == n.status[i := status] && m.owner == n.owner - {i}
    ensures Owners(m)
  {
    OneThreadMoves(n, m, d, t, pc);
    assert i in n.owner && n.owner[i] == (d, t) by { hide Claim, Jump, OwnersHaveClaims; }
    hide Claim, Thread, PcOf, Jump, OwnersHaveClaims, ClaimsAreOwned;
    OthersKeepTheirs(n, m, d, t, i, pc);
  }

  lemma OthersKeepTheirs(n: Node, m: Node, d: nat, t: nat, i: nat, pc: Pc)
    requires Thread(n, d, t) && Claim(PcOf(n, d, t)) == Some(i) && i in n.owner && n.owner[i] == (d, t)
    requires Thread(m, d, t) && PcOf(m, d, t) == pc && Claim(pc).None?
    requires forall e: nat, u: nat :: Thread(m, e, u) == Thread(n, e, u)
    requires forall e: nat, u: nat | Thread(n, e, u) && (e, u) != (d, t) :: PcOf(m, e, u) == PcOf(n, e, u)
    requires m.owner == n.owner - {i} && |m.status| == |n.status|
    requires forall j | 0 <= j < |n.status| && j != i :: m.status[j] == n.status[j]
    ensures OwnersHaveClaims(n) ==> OwnersHaveClaims(m)
    ensures ClaimsAreOwned(n) ==> ClaimsAreOwned(m)
  {
    hide Claim, Thread, PcOf;
    if OwnersHaveClaims(n) {
      forall j | j in m.owner
        ensures j < |m.status| && m.status[j].Downloading?
        ensures Thread(m, m.owner[j].0, m.owner[j].1) && Claim(PcOf(m, m.owner[j].0, m.owner[j].1)) == Some(j)
      {
        assert j in n.owner;
      }
    }
  }

  lemma TwoThreadsMove(n: Node, d: nat, t: nat)
    requires Thread(n, d, 0) && Thread(n, d, t) && t > 0 && PcOf(n, d, 0).Sending?
    ensures var m, i := DoHandOver(n, d, t), PcOf(n, d, 0).i;
            && Thread(m, d, 0) && PcOf(m, d, 0) == CheckValid && Thread(m, d, t) && PcOf(m, d, t) == Received(i)
            && (forall e: nat, u: nat :: Thread(m, e, u) == Thread(n, e, u))
            && forall e: nat, u: nat | Thread(n, e, u) && (e, u) != (d, t) && (e, u) != (d, 0) :: PcOf(m, e, u) == PcOf(n, e, u)
  {
  }

  lemma HandOverKeepsOwners(n: Node, d: nat, t: nat)
    requires Owners(n) && Thread(n, d, 0) && Thread(n, d, t) && t > 0
    requires PcOf(n, d, 0).Sending? && PcOf(n, d, t).Waiting?
    ensures Owners(DoHandOver(n, d, t))
  {
    var m, i := DoHandOver(n, d, t), PcOf(n, d, 0).i;
    assert Claim(PcOf(n, d, 0)) == Some(i) && Claim(PcOf(n, d, t)).None?;
    assert Claim(CheckValid).None? && Claim(Received(i)) == Some(i);
    TwoThreadsMove(n, d, t);
    assert i in n.owner && n.owner[i] == (d, 0) by { hide Claim, DoHandOver, OwnersHaveClaims; }
    hide Claim, DoHandOver, ClaimsAreOwned, OwnersHaveClaims, PcOf, Thread;
    assert m.status == n.status && m.owner == n.owner[i := (d, t)] by { HandOverFields(n, d, t); }
    ClaimMoves(n, m, d, t, i);
  }

  lemma HandOverFields(n: Node, d: nat, t: nat)
    requires Thread(n, d, 0) && Thread(n, d, t) && PcOf(n, d, 0).Sending?
    ensures var m := DoHandOver(n, d, t); m.status == n.status && m.owner == n.owner[PcOf(n, d, 0).i := (d, t)]
  {
  }

  lemma ClaimMoves(n: Node, m: Node, d: nat, t: nat, i: nat)
    requires Owners(n) && t > 0 && i in n.owner && n.owner[i] == (d, 0)
    requires m.status == n.status && m.owner == n.owner[i := (d, t)]
    requires forall e: nat, u: nat :: Thread(m, e, u) == Thread(n, e, u)
    requires Thread(n, d, 0) && Thread(n, d, t)
    requires Claim(PcOf(n, d, 0)) == Some(i) && Claim(PcOf(n, d, t)).None?
    requires Claim(PcOf(m, d, 0)).None? && Claim(PcOf(m, d, t)) == Some(i)
    requires forall e: nat, u: nat | Thread(n, e, u) && (e, u) != (d, t) && (e, u) != (d, 0) :: PcOf(m, e, u) == PcOf(n, e, u)
    ensures Owners(m)
  {
    hide Claim, Thread, PcOf;
  }

  lemma StatusKeepsCounts(c: Config, n: Node, i: nat, status: Status, m: Node)
    requires Counts(c, n) && i < |n.status| == |n.writes| && !n.status[i].Done?
    requires !n.completed || n.serveOnly || status.Done?
    requires m == n.(status := n.status[i := status], owner := m.owner,
                     writes := if status.Done? then n.writes[i := n.writes[i] + 1] else n.writes)
    ensures Counts(c, m)
  {
    hide CountsOf;
    forall d | 0 <= d < |m.ds| ensures CountsOf(c, m.status, m.cancelled, m.completed, m.ds[d]) {
      LaterKeepsCounts(c, n.status, n.cancelled, n.completed, m.status, m.cancelled, m.completed, m.ds[d]);
    }
  }

  /** The dispatcher goes back to its loop, then the worker starts: two jumps of one downloader. */
  lemma HandOverFits(c: Config, n: Node, dl: Downloader, t: nat, i: nat)
    requires DownloaderFits(c, dl) && CountsOf(c, n.status, n.cancelled, n.completed, dl)
    requires 0 < t < |dl.threads| && dl.threads[0] == Sending(i) && dl.threads[t].Waiting?
    ensures var to := Goto(Goto(dl, 0, CheckValid), t, Received(i)).(held := dl.held[i := t]);
            DownloaderFits(c, to) && CountsOf(c, n.status, n.cancelled, n.completed, to)
  {
    assert PcFits(c, dl.threads[0]) && PcFits(c, Received(i));
    hide DownloaderFits, CountsOf, PcFits;
    var mid := Goto(dl, 0, CheckValid);
    GotoFits(c, dl, 0, CheckValid);
    GotoFits(c, mid, t, Received(i));
    GotoKeepsCounts(c, n, dl, 0, CheckValid);
    GotoKeepsCounts(c, n, mid, t, Received(i));
    HeldIsFree(c, n, Goto(mid, t, Received(i)), dl.held[i := t]);
  }

  lemma HandOverKeeps(c: Config, n: Node, d: nat, t: nat)
    requires Inv(c, n) && Thread(n, d, 0) && Thread(n, d, t) && t > 0
    requires PcOf(n, d, 0).Sending? && PcOf(n, d, t).Waiting?
    ensures Inv(c, DoHandOver(n, d, t))
  {
    hide Inv, TokensOf, CountsOf, DownloaderFits, Owners, Tokens, Shape, Counts;
    var dl, i := n.ds[d], PcOf(n, d, 0).i;
    var to := Goto(Goto(dl, 0, CheckValid), t, Received(i)).(held := dl.held[i := t]);
    InvOf(c, n, d);
    HandOverFits(c, n, dl, t, i);
    HandOverKeepsTokens(dl, t, i);
    HandOverKeepsOwners(n, d, t);
    Replaced(c, n, d, to, DoHandOver(n, d, t));
  }

  lemma InvOf(c: Config, n: Node, d: nat)
    requires Inv(c, n) && d < |n.ds|
    ensures Shape(c, n) && Tokens(n) && Owners(n) && Counts(c, n)
    ensures DownloaderFits(c, n.ds[d]) && TokensOf(n.ds[d]) && CountsOf(c, n.status, n.cancelled, n.completed, n.ds[d])
  {
  }

  lemma HeldIsFree(c: Config, n: Node, dl: Downloader, held: map<nat, nat>)
    requires DownloaderFits(c, dl) && CountsOf(c, n.status, n.cancelled, n.completed, dl)
    ensures DownloaderFits(c, dl.(held := held)) && CountsOf(c, n.status, n.cancelled, n.completed, dl.(held := held))
  {
  }

  /** The node `m` differs from `n` in one downloader and in who owns what. */
  lemma Replaced(c: Config, n: Node, d: nat, dl: Downloader, m: Node)
    requires Shape(c, n) && Tokens(n) && Counts(c, n) && Owners(m) && d < |n.ds|
    requires m == With(n, d, dl).(owner := m.owner)
    requires DownloaderFits(c, dl) && TokensOf(dl) && CountsOf(c, n.status, n.cancelled, n.completed, dl)
    ensures Inv(c, m)
  {
    hide TokensOf, CountsOf, DownloaderFits, Owners;
    WithKeepsTokens(n, d, dl);
    WithKeepsCounts(c, n, d, dl);
    WithKeepsShape(c, n, d, dl);
  }

  lemma ClaimKeeps(c: Config, n: Node, d: nat, t: nat, i: nat)
    requires Inv(c, n) && Thread(n, d, t) && PcOf(n, d, t) == Claiming(i) && i < |n.status| && n.status[i].Pending?
    ensures Inv(c, DoStep(c, n, d, t))
  {
    var m := DoStep(c, n, d, t);
    var dl := Goto(n.ds[d], t, Sending(i));
    assert RoleFits(n.ds[d], t, Sending(i)) && MayGoto(c, n, n.ds[d], t, Sending(i));
    GotoKeepsTokens(n.ds[d], t, Sending(i));
    GotoKeepsCounts(c, n, n.ds[d], t, Sending(i));
    GotoFits(c, n.ds[d], t, Sending(i));
    ClaimKeepsOwners(n, m, d, t, i);
    WithKeepsTokens(n, d, dl);
    WithKeepsCounts(c, n, d, dl);
    WithKeepsShape(c, n, d, dl);
    StatusKeepsCounts(c, With(n, d, dl), i, Downloading, m);
    Assembled(c, With(n, d, dl), m);
  }

  lemma Assembled(c: Config, n: Node, m: Node)
    requires Shape(c, n) && Tokens(n) && Counts(c, m) && Owners(m)
    requires m.ds == n.ds && |m.status| == |n.status| && |m.cache| == |n.cache| && |m.writes| == |n.writes|
    ensures Inv(c, m)
  {
    hide TokensOf, CountsOf, DownloaderFits, Owners, Counts;
  }

  /** The node after thread (d, t) has let go of chunk `i` and gone on to `pc`. */
  function Released(n: Node, d: nat, t: nat, i: nat, pc: Pc, status: Status): Node
    requires Thread(n, d, t) && i < |n.status| == |n.writes|
  {
    Jump(n, d, t, pc).(status := n.status[i := status], owner := n.owner - {i},
                       writes := if status.Done? then n.writes[i := n.writes[i] + 1] else n.writes)
  }

  ghost predicate Releases(pc: Pc, i: nat, to: Pc, status: Status) {
    (pc == Publishing(i) && to == Adding(i) && status.Done?) ||
    (pc == Failing(i) && to == PushingBack(i) && status.Pending?)
  }

  lemma ReleaseKeeps(c: Config, n: Node, d: nat, t: nat, i: nat, pc: Pc, status: Status)
    requires Inv(c, n) && Thread(n, d, t) && i < |n.status| == |n.writes| && Releases(PcOf(n, d, t), i, pc, status)
    ensures Inv(c, Released(n, d, t, i, pc, status))
  {
    hide Inv, TokensOf, CountsOf, DownloaderFits, Owners, Tokens, Shape, Counts;
    var m, dl := Released(n, d, t, i, pc, status), Goto(n.ds[d], t, pc);
    ClaimFacts(c, n, d, t, i);
    ThreadFacts(c, n, d, t);
    InvOf(c, n, d);
    assert RoleFits(n.ds[d], t, pc) && PcFits(c, pc) && Token(pc) == Token(PcOf(n, d, t));
    assert Claim(pc).None? && Claim(PcOf(n, d, t)) == Some(i);
    hide Token, Claim, RoleFits, PcFits;
    ReleaseKeepsOwners(n, m, d, t, i, pc, status);
    ReleaseKeepsCounts(c, n, d, t, i, pc, status);
    GotoKeepsTokens(n.ds[d], t, pc);
    GotoFits(c, n.ds[d], t, pc);
    WithKeepsTokens(n, d, dl);
    WithKeepsShape(c, n, d, dl);
    Assembled(c, Jump(n, d, t, pc), m);
  }

  lemma ClaimFacts(c: Config, n: Node, d: nat, t: nat, i: nat)
    requires Inv(c, n) && Thread(n, d, t) && Claim(PcOf(n, d, t)) == Some(i)
    ensures i < |n.status| && n.status[i].Downloading? && (!n.completed || n.serveOnly)
  {
    assert i in n.owner;
  }

  /** First the status changes, then the goroutine moves on. */
  lemma ReleaseKeepsCounts(c: Config, n: Node, d: nat, t: nat, i: nat, pc: Pc, status: Status)
    requires Shape(c, n) && Counts(c, n) && Thread(n, d, t) && i < |n.status| && n.status[i].Downloading?
    requires !n.completed || n.serveOnly
    requires Releases(PcOf(n, d, t), i, pc, status)
    ensures Counts(c, Released(n, d, t, i, pc, status))
  {
    var m := Released(n, d, t, i, pc, status);
    var mid := n.(status := m.status, owner := m.owner, writes := m.writes);
    StatusKeepsCounts(c, n, i, status, mid);
    assert CountsOf(c, mid.status, mid.cancelled, mid.completed, mid.ds[d]);
    assert MayGoto(c, mid, mid.ds[d], t, pc);
    hide CountsOf, MayGoto;
    GotoKeepsCounts(c, mid, mid.ds[d], t, pc);
    WithKeepsCounts(c, mid, d, Goto(mid.ds[d], t, pc));
  }

  lemma SpawnFits(c: Config, n: Node, kind: Kind, queue: seq<nat>, workers: nat) returns (dl: Downloader)
    requires workers >= 1 && NoDuplicates(queue) && forall k | 0 <= k < |queue| :: queue[k] < |c.plan|
    ensures DoSpawn(c, n, kind, queue, workers) == n.(ds := n.ds + [dl])
    ensures DownloaderFits(c, dl) && TokensOf(dl) && CountsOf(c, n.status, n.cancelled, n.completed, dl)
    ensures forall t | 0 <= t < |dl.threads| :: Claim(dl.threads[t]).None?
  {
    dl := Downloader(kind, [FirstPc(c)] + seq(workers, _ => Waiting), queue, Elements(queue), true, 0, map[], {});
    SpawnHasTokens(c, kind, queue, workers);
    hide TokensOf;
    assert dl.threads[0] == FirstPc(c) && forall t | 0 < t < |dl.threads| :: dl.threads[t] == Waiting;
    assert |c.plan| == 0 ==> InCompleteOne(dl.threads[0]);
  }

  lemma SpawnKeeps(c: Config, n: Node, kind: Kind, queue: seq<nat>, workers: nat)
    requires Inv(c, n) && Enabled(c, n, Spawn(kind, queue, workers))
    ensures Inv(c, Next(c, n, Spawn(kind, queue, workers)))
  {
    var dl := SpawnFits(c, n, kind, queue, workers);
    var m := n.(ds := n.ds + [dl]);
    hide TokensOf, CountsOf, DownloaderFits, DoSpawn;
    MoreKeepsOwners(n, m, dl);
    hide Owners;
  }

  lemma MoreKeepsOwners(n: Node, m: Node, dl: Downloader)
    requires Owners(n) && m == n.(ds := n.ds + [dl])
    requires forall t | 0 <= t < |dl.threads| :: Claim(dl.threads[t]).None?
    ensures Owners(m)
  {
    hide Claim;
    assert forall d: nat, t: nat | d < |n.ds| :: Thread(m, d, t) == Thread(n, d, t);
    assert forall d: nat, t: nat | Thread(n, d, t) :: PcOf(m, d, t) == PcOf(n, d, t);
  }

  // Every step ----------------------------------------------------------------

  /** The counter has reached the chunk count, so every chunk has been counted and is Done. */
  lemma FullCountMeansAllDone(c: Config, n: Node, d: nat)
    requires Inv(c, n) && d < |n.ds| && n.ds[d].numCompleted == |c.plan|
    ensures forall i | 0 <= i < |n.status| :: n.status[i].Done?
  {
    var dl := n.ds[d];
    assert TokensOf(dl) && DownloaderFits(c, dl) && CountsOf(c, n.status, n.cancelled, n.completed, dl);
    forall i | 0 <= i < |n.status| && i !in dl.counted ensures false {
      FiniteBelow(dl.counted + {i}, |c.plan|);
    }
  }

  lemma ThreadFacts(c: Config, n: Node, d: nat, t: nat)
    requires Inv(c, n) && Thread(n, d, t)
    ensures Thread(n, d, 0) && |n.status| == |n.cache| == |n.writes| == |c.plan|
    ensures var pc, first := PcOf(n, d, t), PcOf(n, d, 0);
            && PcFits(c, pc)
            && (if t == 0 then ForDispatcher(pc) else ForWorker(pc))
            && (t > 0 && pc.Exited? ==> first.Closing? || first.Exited?)
            && (t > 0 && first.Exited? ==> pc.Exited?)
            && (pc.Adding? ==> IsDone(n.status, pc.i))
            && (pc.Cancelling? || pc.Completing? ==> n.ds[d].numCompleted == |c.plan|)
            && (pc.Completing? ==> n.cancelled)
    ensures n.completed && !n.serveOnly ==> n.cancelled
  {
    assert DownloaderFits(c, n.ds[d]) && CountsOf(c, n.status, n.cancelled, n.completed, n.ds[d]);
  }

  predicate InLoop(pc: Pc) {
    pc.CheckValid? || pc.CheckCancel? || pc.CheckReady? || pc.Popping?
  }

  lemma LoopKeeps(c: Config, n: Node, d: nat, pc: Pc)
    requires Inv(c, n) && Thread(n, d, 0) && InLoop(PcOf(n, d, 0)) && (InLoop(pc) || pc.Closing?)
    ensures Inv(c, Jump(n, d, 0, pc))
  {
    hide Inv;
    ThreadFacts(c, n, d, 0);
    JumpKeeps(c, n, d, 0, pc);
  }

  lemma PoppedKeeps(c: Config, n: Node, d: nat, i: nat, pc: Pc)
    requires Inv(c, n) && Thread(n, d, 0) && (PcOf(n, d, 0) == Popped(i) || PcOf(n, d, 0) == Claiming(i))
    requires pc == Claiming(i) || pc == PushingBack(i) || (pc == Adding(i) && IsDone(n.status, i))
    ensures Inv(c, Jump(n, d, 0, pc))
  {
    hide Inv;
    ThreadFacts(c, n, d, 0);
    JumpKeeps(c, n, d, 0, pc);
  }

  lemma ExitKeeps(c: Config, n: Node, d: nat, t: nat)
    requires Inv(c, n) && Thread(n, d, t) && CanStep(n, d, t)
    requires if t == 0 then PcOf(n, d, t).Closing? else PcOf(n, d, t).Waiting?
    ensures Inv(c, Jump(n, d, t, Exited))
  {
    hide Inv;
    ThreadFacts(c, n, d, t);
    JumpKeeps(c, n, d, t, Exited);
  }

  lemma LoadingKeeps(c: Config, n: Node, d: nat, t: nat)
    requires Inv(c, n) && Thread(n, d, t) && PcOf(n, d, t).Loading?
    ensures Inv(c, Jump(n, d, t, if n.ds[d].numCompleted == |c.plan| then Cancelling else Home(t)))
  {
    hide Inv;
    ThreadFacts(c, n, d, t);
    JumpKeeps(c, n, d, t, if n.ds[d].numCompleted == |c.plan| then Cancelling else Home(t));
  }

  lemma CancellingKeeps(c: Config, n: Node, d: nat, t: nat)
    requires Inv(c, n) && Thread(n, d, t) && PcOf(n, d, t).Cancelling?
    ensures Inv(c, Jump(n, d, t, Completing).(cancelled := true))
  {
    hide Inv;
    var m := n.(cancelled := true);
    ThreadFacts(c, n, d, t);
    FlagsKeep(c, n, m);
    JumpKeeps(c, m, d, t, Completing);
  }

  lemma CompletingKeeps(c: Config, n: Node, d: nat, t: nat)
    requires Inv(c, n) && Thread(n, d, t) && PcOf(n, d, t).Completing?
    ensures Inv(c, Jump(n, d, t, Home(t)).(completed := true))
  {
    hide Inv;
    var m := n.(completed := true);
    ThreadFacts(c, n, d, t);
    FullCountMeansAllDone(c, n, d);
    FlagsKeep(c, n, m);
    JumpKeeps(c, m, d, t, Home(t));
  }

  lemma CheckedKeeps(c: Config, n: Node, d: nat, t: nat, cache: seq<nat>)
    requires Inv(c, n) && Thread(n, d, t) && PcOf(n, d, t).Checked? && |cache| == |n.cache|
    ensures Inv(c, Jump(n, d, t, Publishing(PcOf(n, d, t).i)).(cache := cache))
  {
    hide Inv;
    var m := n.(cache := cache);
    ThreadFacts(c, n, d, t);
    assert PcFits(c, Publishing(PcOf(n, d, t).i));
    hide PcFits;
    FlagsKeep(c, n, m);
    TransferKeeps(c, m, d, t, Publishing(PcOf(n, d, t).i));
  }

  lemma DispatchKeeps(c: Config, n: Node, d: nat)
    requires Inv(c, n) && Enabled(c, n, Step(d, 0))
    requires InLoop(PcOf(n, d, 0)) || PcOf(n, d, 0).Popped? || PcOf(n, d, 0).Claiming?
    ensures Inv(c, Next(c, n, Step(d, 0)))
  {
    hide Inv, SomeWorkerIsReady, AllWorkersExited, Jump, With, Pop;
    ThreadFacts(c, n, d, 0);
    var dl := n.ds[d];
    match PcOf(n, d, 0) {
      case CheckValid => LoopKeeps(c, n, d, if dl.valid then CheckCancel else Closing);
      case CheckCancel => LoopKeeps(c, n, d, if n.cancelled then Closing else CheckReady);
      case CheckReady => LoopKeeps(c, n, d, if SomeWorkerIsReady(dl) then Popping else CheckValid);
      case Popping => if dl.queue == [] { LoopKeeps(c, n, d, CheckValid); } else { PopKeeps(c, n, d); }
      case Popped(i) =>
        PoppedKeeps(c, n, d, i, match n.status[i]
                                case Pending => Claiming(i) case Downloading => PushingBack(i) case Done => Adding(i));
      case Claiming(i) =>
        if n.status[i].Pending? { ClaimKeeps(c, n, d, 0, i); } else { PoppedKeeps(c, n, d, i, PushingBack(i)); }
    }
  }

  lemma WorkKeeps(c: Config, n: Node, d: nat, t: nat)
    requires Inv(c, n) && Enabled(c, n, Step(d, t))
    requires !InLoop(PcOf(n, d, t)) && !PcOf(n, d, t).Popped? && !PcOf(n, d, t).Claiming?
    ensures Inv(c, Next(c, n, Step(d, t)))
  {
    hide Inv;
    ThreadFacts(c, n, d, t);
    match PcOf(n, d, t) {
      case Closing => ExitKeeps(c, n, d, t);
      case Waiting => ExitKeeps(c, n, d, t);
      case Received(i) => TransferKeeps(c, n, d, t, Requesting(i));
      case Checked(i, expected) => CheckedKeeps(c, n, d, t, if c.verify then n.cache[i := expected] else n.cache);
      case Publishing(i) => ReleaseKeeps(c, n, d, t, i, Adding(i), Done);
      case Failing(i) => ReleaseKeeps(c, n, d, t, i, PushingBack(i), Pending);
      case PushingBack(i) => PushBackKeeps(c, n, d, t, i);
      case Adding(i) => CountKeeps(c, n, d, t, i);
      case Loading => LoadingKeeps(c, n, d, t);
      case Cancelling => CancellingKeeps(c, n, d, t);
      case Completing => CompletingKeeps(c, n, d, t);
    }
  }

  predicate InTransfer(pc: Pc) {
    pc.Received? || pc.Requesting? || pc.Writing? || pc.Checked? || pc.Publishing? || pc.Failing?
  }

  lemma TransferFacts(pc: Pc)
    requires InTransfer(pc)
    ensures Token(pc) == Some(pc.i) == Claim(pc) && ForWorker(pc) && !ForDispatcher(pc) && !InCompleteOne(pc)
    ensures !pc.Adding? && !pc.Cancelling? && !pc.Completing? && !pc.Exited?
  {
  }

  /** A worker goes on with the same chunk. */
  lemma TransferKeeps(c: Config, n: Node, d: nat, t: nat, pc: Pc)
    requires Inv(c, n) && Thread(n, d, t) && InTransfer(PcOf(n, d, t)) && InTransfer(pc)
    requires PcFits(c, pc) && Token(pc) == Token(PcOf(n, d, t))
    ensures Inv(c, Jump(n, d, t, pc))
  {
    hide Inv, PcFits, InTransfer, Token, Claim, ForWorker, ForDispatcher, InCompleteOne;
    ThreadFacts(c, n, d, t);
    TransferFacts(pc);
    TransferFacts(PcOf(n, d, t));
    JumpKeeps(c, n, d, t, pc);
  }

  lemma ReceiveKeeps(c: Config, n: Node, d: nat, t: nat, data: seq<byte>)
    requires Inv(c, n) && Thread(n, d, t) && PcOf(n, d, t).Writing?
    requires var w := PcOf(n, d, t);
             w.i < |c.plan| && w.k < |c.plan[w.i]| && |w.got| + |data| <= Bound(c, w.i, w.k + 1) <= |Addrs(c, w.i)|
    ensures Inv(c, DoReceive(c, n, d, t, data))
  {
    hide Inv;
    var w, m := PcOf(n, d, t), n.(store := DoReceive(c, n, d, t, data).store);
    ThreadFacts(c, n, d, t);
    assert PcFits(c, Writing(w.i, w.k, w.got + data, w.expected));
    hide Bound, PcFits;
    FlagsKeep(c, n, m);
    TransferKeeps(c, m, d, t, Writing(w.i, w.k, w.got + data, w.expected));
  }

  lemma EndRangeKeeps(c: Config, n: Node, d: nat, t: nat)
    requires Inv(c, n) && Thread(n, d, t) && PcOf(n, d, t).Writing?
    requires var w := PcOf(n, d, t); w.i < |c.plan| && w.k < |c.plan[w.i]| && |w.got| == Bound(c, w.i, w.k + 1)
    ensures Inv(c, DoEndRange(c, n, d, t))
  {
    hide Inv;
    var w, to := PcOf(n, d, t), DoEndRange(c, n, d, t);
    var m := n.(tally := to.tally, log := to.log);
    ThreadFacts(c, n, d, t);
    NextRangeFits(c, w);
    hide Bound, PcFits;
    FlagsKeep(c, n, m);
    TransferKeeps(c, m, d, t, Writing(w.i, w.k + 1, w.got, w.expected));
  }

  lemma NoBytesYet(c: Config, i: nat, expected: nat)
    requires i < |c.plan|
    ensures PcFits(c, Writing(i, 0, [], expected))
  {
    BoundWithin(c, i, 0);
  }

  lemma NextRangeFits(c: Config, w: Pc)
    requires w.Writing? && PcFits(c, w) && w.k < |c.plan[w.i]| && |w.got| == Bound(c, w.i, w.k + 1)
    ensures PcFits(c, Writing(w.i, w.k + 1, w.got, w.expected))
  {
    BoundWithin(c, w.i, w.k + 1);
  }

  lemma TransfersKeep(c: Config, n: Node, a: Action)
    requires Inv(c, n) && Enabled(c, n, a)
    requires a.Reply? || a.Receive? || a.EndRange? || a.CheckSum? || a.Fail?
    ensures Inv(c, Next(c, n, a))
  {
    hide Inv, Verdict;
    ThreadFacts(c, n, a.d, a.t);
    match a {
      case Reply(d, t, expected) =>
        NoBytesYet(c, PcOf(n, d, t).i, expected);
        TransferKeeps(c, n, d, t, Writing(PcOf(n, d, t).i, 0, [], expected));
      case Receive(d, t, data) =>
        BoundWithin(c, PcOf(n, d, t).i, PcOf(n, d, t).k + 1);
        ReceiveKeeps(c, n, d, t, data);
      case EndRange(d, t) => EndRangeKeeps(c, n, d, t);
      case CheckSum(d, t) =>
        VerdictFits(c, PcOf(n, d, t));
        TransferKeeps(c, n, d, t, Verdict(c, PcOf(n, d, t)));
      case Fail(d, t) => TransferKeeps(c, n, d, t, Failing(PcOf(n, d, t).i));
    }
  }

  lemma VerdictFits(c: Config, w: Pc)
    requires w.Writing? && PcFits(c, w)
    ensures var pc := Verdict(c, w); (pc.Checked? || pc.Failing?) && pc.i == w.i && PcFits(c, pc)
  {
  }

  lemma StepKeeps(c: Config, n: Node, d: nat, t: nat)
    requires Inv(c, n) && Enabled(c, n, Step(d, t))
    ensures Inv(c, Next(c, n, Step(d, t)))
  {
    hide Inv;
    ThreadFacts(c, n, d, t);
    var pc := PcOf(n, d, t);
    if InLoop(pc) || pc.Popped? || pc.Claiming? { DispatchKeeps(c, n, d); } else { WorkKeeps(c, n, d, t); }
  }

  /** The invariant holds in every reachable state of a node, whatever the other nodes send. */
  lemma NextKeepsInv(c: Config, n: Node, a: Action)
    requires Inv(c, n) && Enabled(c, n, a)
    ensures Inv(c, Next(c, n, a))
  {
    hide Inv;
    match a {
      case Spawn(kind, queue, workers) => SpawnKeeps(c, n, kind, queue, workers);
      case Invalidate(d) => InvalidateKeeps(c, n, d);
      case Cancel => FlagsKeep(c, n, n.(cancelled := true));
      case Poll(d, list) => PollKeeps(c, n, d, list);
      case FillCache(i, value) => FlagsKeep(c, n, n.(cache := n.cache[i := value]));
      case HandOver(d, t) => HandOverKeeps(c, n, d, t);
      case Step(d, t) => StepKeeps(c, n, d, t);
      case _ => TransfersKeep(c, n, a);
    }
  }
}
