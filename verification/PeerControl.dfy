/** The peer controller and the downloader table it drives (src/peers/controller.go,
    src/downloader.go:28-95). */
module PeerControl {

  /** Hosts are only ever compared, so a number stands for an address. */
  type Host = nat

  datatype Event = Added(host: Host) | Removed(host: Host) | AlreadyExists(host: Host) | NotFound(host: Host)

  /** The last thing that happened to `host`. */
  function LastEvent(log: seq<Event>, host: Host): Event {
    if log == [] then Removed(host)
    else if log[|log| - 1].host == host then log[|log| - 1]
    else LastEvent(log[..|log| - 1], host)
  }

  /** Every host is added first, then removed and added in turn, and no callback ever complains. */
  ghost predicate Alternates(log: seq<Event>) {
    log == [] ||
    var e, before := log[|log| - 1], log[..|log| - 1];
    && Alternates(before)
    && (e.Added? || e.Removed?)
    && (e.Added? <==> LastEvent(before, e.host).Removed?)
  }

  lemma {:induction false} LastEventIsAddedOrRemoved(log: seq<Event>, host: Host)
    requires Alternates(log)
    ensures LastEvent(log, host).Added? || LastEvent(log, host).Removed?
  {
    if log != [] && log[|log| - 1].host != host {
      LastEventIsAddedOrRemoved(log[..|log| - 1], host);
    }
  }

  /** The table of running peer downloaders. */
  class PeerDownloaders {
    var downloaders: set<Host>
    ghost var log: seq<Event>

    /** The table holds the hosts whose last event was an addition, and the log alternates. */
    ghost predicate Valid()
      reads this
    {
      Alternates(log) && forall h: Host :: h in downloaders <==> LastEvent(log, h).Added?
    }

    constructor ()
      ensures Valid() && downloaders == {} && log == []
    {
      downloaders, log := {}, [];
    }

    method Add(host: Host)
      modifies this
      ensures old(Valid()) && host !in old(downloaders) ==> Valid()
      ensures downloaders == old(downloaders) + {host}
      ensures log == old(log) + [if host in old(downloaders) then AlreadyExists(host) else Added(host)]
    {
      ghost var before := log;
      if host in downloaders {
        log := log + [AlreadyExists(host)];
        return;
      }
      downloaders := downloaders + {host};
      log := log + [Added(host)];
      Appended(before, Added(host));
      if Alternates(before) {
        LastEventIsAddedOrRemoved(before, host);
      }
    }

    method Remove(host: Host)
      modifies this
      ensures old(Valid()) && host in old(downloaders) ==> Valid()
      ensures downloaders == old(downloaders) - {host}
      ensures log == old(log) + [if host in old(downloaders) then Removed(host) else NotFound(host)]
    {
      ghost var before := log;
      if host !in downloaders {
        log := log + [NotFound(host)];
        return;
      }
      downloaders := downloaders - {host};
      log := log + [Removed(host)];
      Appended(before, Removed(host));
    }
  }

  lemma Appended(log: seq<Event>, e: Event)
    ensures forall h: Host :: LastEvent(log + [e], h) == if h == e.host then e else LastEvent(log, h)
    ensures Alternates(log + [e]) <==>
              Alternates(log) && (e.Added? || e.Removed?) && (e.Added? <==> LastEvent(log, e.host).Removed?)
  {
    assert (log + [e])[..|log|] == log;
  }

  function Hosts(list: seq<Host>): set<Host> {
    set h | h in list
  }

  class Controller {
    var peers: set<Host>
    const table: PeerDownloaders

    ghost predicate Valid()
      reads this, table
    {
      table.Valid() && peers == table.downloaders
    }

    constructor ()
      ensures Valid() && fresh(table) && peers == {} && table.log == []
    {
      peers := {};
      table := new PeerDownloaders();
    }

    /** The started goroutines run in whatever order the scheduler picks, until `wg.Wait` returns. */
    method RunCallbacks(adding: set<Host>, removing: set<Host>)
      requires table.Valid() && adding !! table.downloaders && removing <= table.downloaders
      modifies table
      ensures table.Valid() && old(table.log) <= table.log
      ensures table.downloaders == old(table.downloaders) + adding - removing
    {
      var left := adding + removing;
      ghost var before := table.downloaders;
      while left != {}
        invariant table.Valid() && old(table.log) <= table.log && left <= adding + removing
        invariant forall h: Host :: h in table.downloaders <==>
                    if h in left then h in before else (h in before || h in adding) && h !in removing
        decreases |left|
      {
        hide table.Valid;
        var host :| host in left;
        left := left - {host};
        if host in adding {
          table.Add(host);
        } else {
          table.Remove(host);
        }
      }
    }

    /** After a reconciliation the controller's set, the downloader table and the desired hosts agree. */
    method Reconcile(desired: seq<Host>)
      requires Valid()
      modifies this, table
      ensures Valid() && old(table.log) <= table.log
      ensures forall h: Host :: h in peers <==> h in desired
    {
      var want: set<Host> := {};
      var k := 0;
      while k < |desired|
        invariant 0 <= k <= |desired| && want == Hosts(desired[..k])
      {
        want := want + {desired[k]};
        k := k + 1;
      }
      assert desired[..k] == desired;
      var before := peers;
      var adding := StartMissing(want);
      var removing := StopUndesired(want);
      RunCallbacks(adding, removing);
    }

    /** The loop of `reconcile` that starts new workers. */
    method StartMissing(want: set<Host>) returns (adding: set<Host>)
      modifies this`peers
      ensures adding == want - old(peers) && peers == old(peers) + want
    {
      adding := {};
      var rest := want;
      while rest != {}
        invariant rest <= want
        invariant peers == old(peers) + (want - rest) && adding == want - rest - old(peers)
        decreases |rest|
      {
        var host :| host in rest;
        rest := rest - {host};
        if host !in peers {
          adding := adding + {host};
          peers := peers + {host};
        }
      }
    }

    /** The loops of `reconcile` that stop the workers no longer desired. */
    method StopUndesired(want: set<Host>) returns (toStop: set<Host>)
      modifies this`peers
      ensures toStop == old(peers) - want && peers == old(peers) - toStop
    {
      toStop := Undesired(want);
      var rest := toStop;
      ghost var before := peers;
      while rest != {}
        invariant rest <= toStop && peers == before - (toStop - rest)
        decreases |rest|
      {
        var host :| host in rest;
        rest := rest - {host};
        peers := peers - {host};
      }
    }

    method Undesired(want: set<Host>) returns (toStop: set<Host>)
      ensures toStop == peers - want
    {
      toStop := {};
      var rest := peers;
      while rest != {}
        invariant rest <= peers && toStop == peers - rest - want
        decreases |rest|
      {
        var host :| host in rest;
        rest := rest - {host};
        if host !in want {
          toStop := toStop + {host};
        }
      }
    }

    method StopAll()
      requires Valid()
      modifies this, table
      ensures Valid() && peers == {} && table.downloaders == {}
      ensures old(table.log) <= table.log
    {
      Reconcile([]);
    }

    /** `Run` until it is cancelled: any lists, any failed lookups in between, then `stopAll`. `upTo[k]` is
        how much of the table's log had been written after lookup `k`: by then exactly the delivered hosts
        were running, and a failed lookup has started and stopped nothing. */
    method Run(lists: seq<Lookup>) returns (ghost upTo: seq<nat>)
      requires Valid()
      modifies this, table
      ensures Valid() && peers == {} && table.downloaders == {} && Alternates(table.log)
      ensures old(table.log) <= table.log && |upTo| == |lists|
      ensures History(table.log, old(|table.log|), lists, upTo)
    {
      hide *;
      upTo := [];
      NoHistory(table.log, lists);
      var k := 0;
      while k < |lists|
        invariant 0 <= k == |upTo| <= |lists| && Valid() && old(table.log) <= table.log
        invariant LogBefore(old(|table.log|), upTo, k) == |table.log|
        invariant History(table.log, old(|table.log|), lists, upTo)
      {
        ghost var before := table.log;
        if lists[k].Peers? {
          Reconcile(lists[k].hosts);
          RunsWhatPeersSay();
        }
        HistoryGoesOn(before, table.log, old(|table.log|), lists, upTo);
        upTo := upTo + [|table.log|];
        k := k + 1;
      }
      ghost var before := table.log;
      StopAll();
      RunsWhatPeersSay();
      HistoryStays(before, table.log, old(|table.log|), lists, upTo);
    }

    lemma RunsWhatPeersSay()
      requires Valid()
      ensures Alternates(table.log) && forall h: Host :: h in peers <==> LastEvent(table.log, h).Added?
    {
    }
  }

  /** What a lookup has added to the log: after a list, exactly its hosts had been added and not removed
      again; a failed lookup has added nothing. */
  ghost predicate Followed(log: seq<Event>, from: nat, to: nat, lookup: Lookup) {
    && from <= to <= |log|
    && (lookup.Peers? ==> forall h: Host :: LastEvent(log[..to], h).Added? <==> h in lookup.hosts)
    && (lookup.LookupFailed? ==> to == from)
  }

  /** `upTo` divides the log from `start` on into what each lookup has added. */
  ghost predicate History(log: seq<Event>, start: nat, lists: seq<Lookup>, upTo: seq<nat>) {
    |upTo| <= |lists| && forall k | 0 <= k < |upTo| :: Followed(log, LogBefore(start, upTo, k), upTo[k], lists[k])
  }

  lemma NoHistory(log: seq<Event>, lists: seq<Lookup>)
    ensures History(log, |log|, lists, []) && LogBefore(|log|, [], 0) == |log|
  {
  }

  lemma StillFollowed(log: seq<Event>, later: seq<Event>, from: nat, to: nat, lookup: Lookup)
    requires Followed(log, from, to, lookup) && log <= later
    ensures Followed(later, from, to, lookup)
  {
    hide LastEvent;
    assert later[..to] == log[..to];
  }

  lemma HistoryStays(log: seq<Event>, later: seq<Event>, start: nat, lists: seq<Lookup>, upTo: seq<nat>)
    requires History(log, start, lists, upTo) && log <= later
    ensures History(later, start, lists, upTo)
  {
    hide Followed;
    forall k | 0 <= k < |upTo| ensures Followed(later, LogBefore(start, upTo, k), upTo[k], lists[k]) {
      StillFollowed(log, later, LogBefore(start, upTo, k), upTo[k], lists[k]);
    }
  }

  lemma HistoryGoesOn(log: seq<Event>, later: seq<Event>, start: nat, lists: seq<Lookup>, upTo: seq<nat>)
    requires History(log, start, lists, upTo) && log <= later && |upTo| < |lists|
    requires LogBefore(start, upTo, |upTo|) == |log|
    requires var l := lists[|upTo|];
             if l.LookupFailed? then later == log else forall h: Host :: LastEvent(later, h).Added? <==> h in l.hosts
    ensures History(later, start, lists, upTo + [|later|]) && LogBefore(start, upTo + [|later|], |upTo| + 1) == |later|
  {
    FollowsLast(log, later, lists[|upTo|]);
    HistoryStays(log, later, start, lists, upTo);
    hide LastEvent, Followed;
    var more := upTo + [|later|];
    forall k | 0 <= k < |more| ensures Followed(later, LogBefore(start, more, k), more[k], lists[k]) {
      if k < |upTo| { assert Followed(later, LogBefore(start, upTo, k), upTo[k], lists[k]); }
    }
  }

  lemma FollowsLast(log: seq<Event>, later: seq<Event>, lookup: Lookup)
    requires log <= later
    requires if lookup.LookupFailed? then later == log
             else forall h: Host :: LastEvent(later, h).Added? <==> h in lookup.hosts
    ensures Followed(later, |log|, |later|, lookup)
  {
    assert later[..|later|] == later;
    hide LastEvent;
  }

  /** The point of the log at which lookup `k` began. */
  function LogBefore(start: nat, upTo: seq<nat>, k: nat): nat
    requires k <= |upTo|
  {
    if k == 0 then start else upTo[k - 1]
  }

  /** The provider's answer to one lookup. */
  datatype Lookup = LookupFailed | Peers(hosts: seq<Host>)
}
