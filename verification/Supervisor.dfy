// What the supervisors of both drivers share: one poll per tick, and the stream
// a client reads while the polls go on.
module Supervisor {
  import opened Records
  import opened Fleet
  import opened Reconcile
  import opened Polling
  import opened Phases
  import opened KubeWatcher
  import opened Ec2Watcher
  import R = Registry
  import opened Replay
  import opened Watching
  import A = Adversary

  // Either driver, as its supervisor sees it.
  datatype Supervised =
    | Kube(kube: KubeVirtDriver)
    | Ec2(ec2: EC2Driver)
  {
    function Kind(): Driver { if Kube? then KubeVirt else EC2 }

    function Registry(): R.Registry { if Kube? then kube.registry else ec2.registry }

    function Provider(): A.Provider { if Kube? then kube.provider else ec2.provider }

    function Clock(): A.Clock { if Kube? then kube.clock else ec2.clock }

    function MaxAge(): int { if Kube? then kube.maxAge else ec2.maxAge }

    ghost predicate Valid()
      reads Registry()
    {
      if Kube? then kube.Valid() else ec2.Valid()
    }

    ghost function Now(): Moment
      reads Registry(), Provider(), Clock()
    {
      At(Registry(), Provider(), Clock())
    }
  }

  // What a tick brought, as the poll it started saw it.
  ghost predicate Brought(listing: Option<seq<Instance>>, round: Round) {
    (round.ListFailed? <==> listing.None?) && (round.Reconciled? ==> listing == Some(round.listing)) && !round.Calls?
  }

  method PollOnce(driver: Supervised, listing: Option<seq<Instance>>) returns (ok: bool, ghost round: Round)
    requires driver.Valid()
    modifies driver.Registry(), driver.Provider(), driver.Clock()
    ensures driver.Valid() && Follows(old(driver.Now()), driver.Now())
    ensures RoundRel(driver.Kind(), old(driver.Registry().records), driver.Registry().records, round, driver.MaxAge())
    ensures (ok <==> round.Reconciled?) && Brought(listing, round)
  {
    hide PollRel, AbortRel, Accounted, Follows;
    ghost var start := driver.Now();
    ghost var cs, now;
    match driver {
      case Kube(kube) => ok, cs, now := kube.Poll(listing);
      case Ec2(ec2) => ok, cs, now := ec2.Poll(listing);
    }
    round := if listing.None? then ListFailed
             else if ok then Reconciled(listing.value, cs, now) else Aborted(listing.value, cs);
    if ok { assert PollRan(driver.Kind(), start, driver.Now(), listing.value, cs, now, driver.MaxAge()); }
  }

  lemma NoRounds(d: Driver, records: map<string, Record>, maxAge: int)
    ensures Rounds(d, [records], [], maxAge)
  {
  }

  lemma RoundsNext(
    d: Driver, r: seq<map<string, Record>>, history: seq<Round>, maxAge: int, post: map<string, Record>, round: Round)
    requires Rounds(d, r, history, maxAge) && RoundRel(d, r[|history|], post, round, maxAge)
    ensures Rounds(d, r + [post], history + [round], maxAge)
  {
    hide RoundRel;
  }

  // WatchSandboxes against polls: a client takes the snapshot, then reads as
  // many events as it likes between polls and all that wait at the end. If it
  // was not disconnected for being slow, its picture is exactly the registry.
  method WatchSandboxes(driver: Supervised, ticks: seq<Option<seq<Instance>>>) returns (picture: Picture, connected: bool)
    requires driver.Valid()
    modifies driver.Registry(), driver.Provider(), driver.Clock()
    ensures driver.Valid()
    ensures connected ==> Shows(picture, driver.Registry().records)
    ensures connected || driver.Registry().overflowDisconnects > old(driver.Registry().overflowDisconnects)
  {
    hide R.FanOutInv, Follows, Reading, RoundRel, Shows, Project;
    var registry, ch := driver.Registry(), 0;
    ch, picture := Open(registry);
    ghost var start := FeedOf(registry);
    for i := 0 to |ticks|
      invariant driver.Valid() && Reading(start, FeedOf(registry), ch, picture)
    {
      ghost var before, feed := driver.Now(), FeedOf(registry);
      var ok;
      ghost var round;
      ok, round := PollOnce(driver, ticks[i]);
      ReadingFollows(start, feed, FeedOf(registry), before, driver.Now(), ch, picture);
      var events: nat := *;
      picture := Read(registry, start, ch, picture, events);
    }
    connected, picture := Finish(registry, start, ch, picture);
    ProjectionShows(picture, registry.records);
  }
}
