// What a complete poll makes of every record, field by field, in terms of the
// listing, the log of Terminate calls and the clock.
module PollWrites {
  import opened Records
  import opened Store
  import opened Fleet
  import opened Transitions
  import opened Reconcile
  import opened Replay
  import opened Polling
  import opened Phases
  import opened PollGuarantees

  // Some instance of the sandbox counts as listed.
  ghost predicate Shown(d: Driver, listing: seq<Instance>, id: string) {
    id != "" && exists x :: x in listing && x.sandboxId == id && (d.KubeVirt? ==> x.state != "Deleted")
  }

  // The one a driver keeps: EC2 the oldest, KubeVirt the one it chooses.
  ghost predicate Keeps(d: Driver, x: Instance, listing: seq<Instance>, id: string) {
    if d.KubeVirt? then Chosen(x, listing, id)
    else x in listing && x.sandboxId == id && forall y :: y in listing && y.sandboxId == id ==> EarlierThan(x, y)
  }

  // The word for being on the way out.
  function Leaving(d: Driver): string { if d.KubeVirt? then "deleting" else "shutting-down" }

  // KubeVirt does not take over that a VM still runs which was asked to stop or
  // go; EC2 takes over what is listed.
  function TakenOver(d: Driver, asked: string, listed: string): string {
    if d.KubeVirt? && listed == "Running" && asked in {"deleting", "stopping"} then asked else listed
  }

  predicate TooOld(createdAt: Time, now: Time, maxAge: int) {
    createdAt != 0 && now - createdAt > if maxAge > 0 then maxAge else 28_800_000_000_000
  }

  // The state came from the listing or the record, or the record was too old, is
  // leaving, and its instance was terminated in this poll.
  ghost predicate StateOrLeaving(
    d: Driver, r: Record, state: string, a: Moment, b: Moment, now: Time, maxAge: int)
  {
    || r.state == state
    || (r.state == Leaving(d) && state != "terminated" && TooOld(r.createdAt, now, maxAge)
        && Terminated(b.calls, |a.calls|, r.instanceId))
  }

  ghost predicate StatusAt(status: Option<Status>, name: string, instanceId: string, state: string, from: Time, to: Time) {
    status.Some? && from <= status.value.transition <= to
    && status.value.sandboxName == name && status.value.instanceId == instanceId && status.value.state == state
  }

  lemma KeptKeeps(d: Driver, listing: seq<Instance>, cs: map<string, Choice>, id: string)
    requires Covers(listing, cs) && id in cs && Seen(d, cs[id])
    ensures Keeps(d, Kept(d, cs[id]), listing, id)
    ensures Kept(d, cs[id]) in listing && Kept(d, cs[id]).sandboxId == id
  {
    KeptListed(d, listing, cs, id);
    MatchesMembers(listing, id);
    var x := Kept(d, cs[id]);
    hide Kept, Seen, Group;
    if d.KubeVirt? {
      KeeperIsChosen(x, listing, id);
    } else {
      forall y | y in listing && y.sandboxId == id ensures EarlierThan(x, y) {
        assert y in Matches(listing, id);
        StringLePrecedes(x.id, y.id);
      }
    }
  }

  lemma ShownIsSeen(d: Driver, listing: seq<Instance>, cs: map<string, Choice>, id: string)
    requires Covers(listing, cs)
    ensures Shown(d, listing, id) ==> id in cs && Seen(d, cs[id])
    ensures id in cs && Seen(d, cs[id]) ==> Shown(d, listing, id)
  {
    SeenIffListed(d, listing, cs, id);
    MatchesMembers(listing, id);
    hide Seen, Group;
    if Matches(listing, id) != [] { assert Matches(listing, id)[0] in Matches(listing, id); }
  }

  // ---- A sandbox that is known and listed -------------------------------------------

  ghost predicate Refreshed(
    d: Driver, r: Record, r': Record, x: Instance, a: Moment, b: Moment, now: Time, maxAge: int)
  {
    var state := TakenOver(d, r.state, x.state);
    var asListed := r.instanceId == x.id && r.state == state && r.missingPolls == 0;
    && r' == r.(instanceId := x.id, missingPolls := 0, createdAt := r'.createdAt, state := r'.state, lastStatus := r'.lastStatus)
    && r'.createdAt == (if r.createdAt == 0 && !asListed then x.createdAt else r.createdAt)
    && StateOrLeaving(d, r', state, a, b, now, maxAge)
    && (if r'.state == r.state then r'.lastStatus == r.lastStatus || StatusAt(r'.lastStatus, r.name, x.id, r'.state, a.last, b.last)
        else StatusAt(r'.lastStatus, r.name, x.id, r'.state, a.last, b.last))
  }

  lemma ListedOnce(d: Driver, r: Record, c: Choice, maxAge: int)
    requires Redacted(r) && Seen(d, c) && !Down(d, Kept(d, c).state)
    ensures
      var x, post := Kept(d, c), ListStep(d, Some(r), c, maxAge);
      var state := TakenOver(d, r.state, x.state);
      var asListed := r.instanceId == x.id && r.state == state && r.missingPolls == 0;
      post == Some(r.(instanceId := x.id, missingPolls := 0, state := state,
        createdAt := if r.createdAt == 0 && !asListed then x.createdAt else r.createdAt,
        lastStatus := if r.state == state then r.lastStatus else Some(Status(r.name, x.id, state, c.statusAt))))
  {
    hide Seen, Kept;
  }

  lemma RefreshedOnce(
    d: Driver, r: Record, c: Choice, a: Moment, b: Moment, group: seq<Instance>, now: Time, maxAge: int)
    requires Redacted(r) && Seen(d, c) && !Down(d, Kept(d, c).state) && ReadWithin(c, a.last, now) && a.last <= c.expiredAt <= b.last
    requires now <= b.last && Accounted(d, Some(r), group, c, now, maxAge, b.calls, |a.calls|)
    ensures Polled(d, Some(r), c, now, maxAge).Some?
    ensures Refreshed(d, r, Polled(d, Some(r), c, now, maxAge).value, Kept(d, c), a, b, now, maxAge)
  {
    hide Answered, Partitioned, Seen, Kept, Down, ListStep, TakenOver, CleanupAnswered;
    ListedOnce(d, r, c, maxAge);
  }

  // A known sandbox that is listed: bound to the instance kept, without misses,
  // in the listed state unless a stop or delete was asked for that the listing
  // does not show yet; or it was too old and is leaving.
  lemma KnownIsRefreshed(
    d: Driver, a: Moment, b: Moment, listing: seq<Instance>, cs: map<string, Choice>, now: Time, maxAge: int, id: string)
    returns (x: Instance)
    requires PollRan(d, a, b, listing, cs, now, maxAge)
    requires id in a.records && Redacted(a.records[id]) && Shown(d, listing, id)
    ensures Keeps(d, x, listing, id)
    ensures id in b.records <==> !(d.EC2? && x.state == "terminated")
    ensures id in b.records ==> Refreshed(d, a.records[id], b.records[id], x, a, b, now, maxAge)
  {
    ShownIsSeen(d, listing, cs, id);
    PolledAt(d, a, b, listing, cs, now, maxAge, id);
    KeptKeeps(d, listing, cs, id);
    x := Kept(d, cs[id]);
    hide Follows, Accounted, Polled, PollRel, Kept, Seen, Refreshed, Keeps;
    if Down(d, x.state) {
      KeptDown(d, a.records[id], cs[id], listing, id, now, maxAge);
    } else {
      RefreshedOnce(d, a.records[id], cs[id], a, b, Matches(listing, id), now, maxAge);
    }
  }

  lemma KeptDown(d: Driver, r: Record, c: Choice, listing: seq<Instance>, id: string, now: Time, maxAge: int)
    requires Seen(d, c) && Down(d, Kept(d, c).state) && Keeps(d, Kept(d, c), listing, id)
    ensures Polled(d, Some(r), c, now, maxAge).None? && d.EC2? && Kept(d, c).state == "terminated"
  {
    hide Seen, Kept, EarlierThan;
  }

  // ---- A sandbox that is new ------------------------------------------------------------

  // What is known of it is what its instance says. A creation time of zero, or
  // more than five minutes ahead of the clock, makes it just too old.
  ghost predicate Discovered(d: Driver, r: Record, x: Instance, a: Moment, b: Moment, now: Time, maxAge: int) {
    && r == Record(x.sandboxId, x.name, x.namespace, x.workspace, x.id, r.state, r.createdAt, 0, None, r.lastStatus, r.lease)
    && (x.createdAt != 0 && x.createdAt - a.last <= 300_000_000_000 ==> r.createdAt == x.createdAt)
    && (x.createdAt == 0 || x.createdAt - b.last > 300_000_000_000 ==>
          a.last <= r.createdAt + maxAge + 1_000_000_000 <= now)
    && StateOrLeaving(d, r, x.state, a, b, now, maxAge)
    && StatusAt(r.lastStatus, x.name, x.id, r.state, a.last, b.last)
  }

  lemma DiscoveredOnce(
    d: Driver, c: Choice, a: Moment, b: Moment, group: seq<Instance>, now: Time, maxAge: int)
    requires Seen(d, c) && !Down(d, Kept(d, c).state) && ReadWithin(c, a.last, now) && a.last <= c.expiredAt <= b.last
    requires now <= b.last && Accounted(d, None, group, c, now, maxAge, b.calls, |a.calls|)
    ensures Polled(d, None, c, now, maxAge).Some?
    ensures Discovered(d, Polled(d, None, c, now, maxAge).value, Kept(d, c), a, b, now, maxAge)
  {
    hide Answered, Partitioned, Seen, Kept, KeeperIndex;
  }

  // A listed sandbox without a record gets one from the instance kept.
  lemma UnknownIsDiscovered(
    d: Driver, a: Moment, b: Moment, listing: seq<Instance>, cs: map<string, Choice>, now: Time, maxAge: int, id: string)
    returns (x: Instance)
    requires PollRan(d, a, b, listing, cs, now, maxAge)
    requires id !in a.records && Shown(d, listing, id)
    ensures Keeps(d, x, listing, id)
    ensures id in b.records <==> !(d.EC2? && x.state == "terminated")
    ensures id in b.records ==> Discovered(d, b.records[id], x, a, b, now, maxAge)
  {
    ShownIsSeen(d, listing, cs, id);
    PolledAt(d, a, b, listing, cs, now, maxAge, id);
    KeptKeeps(d, listing, cs, id);
    x := Kept(d, cs[id]);
    hide Follows, Accounted, Polled, PollRel, Kept, Seen, Discovered, Keeps;
    if Down(d, x.state) {
      DownUnknown(d, cs[id], listing, id, now, maxAge);
    } else {
      DiscoveredOnce(d, cs[id], a, b, Matches(listing, id), now, maxAge);
    }
  }

  lemma DownUnknown(d: Driver, c: Choice, listing: seq<Instance>, id: string, now: Time, maxAge: int)
    requires Seen(d, c) && Down(d, Kept(d, c).state) && Keeps(d, Kept(d, c), listing, id)
    ensures Polled(d, None, c, now, maxAge).None? && d.EC2? && Kept(d, c).state == "terminated"
  {
    hide Seen, Kept, EarlierThan;
  }

  // ---- A sandbox that is not listed --------------------------------------------------------

  // Its record keeps everything but the miss counter, unless it was too old.
  ghost predicate Missing(d: Driver, r: Record, r': Record, a: Moment, b: Moment, now: Time, maxAge: int) {
    if r.instanceId == "" then r' == r
    else
      && r' == r.(missingPolls := r.missingPolls + 1, state := r'.state, lastStatus := r'.lastStatus)
      && StateOrLeaving(d, r', r.state, a, b, now, maxAge)
      && (r'.lastStatus == r.lastStatus || StatusAt(r'.lastStatus, r.name, r.instanceId, r'.state, a.last, b.last))
      && (r'.state == r.state ==> r'.lastStatus == r.lastStatus)
  }

  lemma MissedOnce(
    d: Driver, r: Record, c: Choice, a: Moment, b: Moment, group: seq<Instance>, now: Time, maxAge: int)
    requires Redacted(r) && !Seen(d, c) && a.last <= c.expiredAt <= b.last
    requires Accounted(d, Some(r), group, c, now, maxAge, b.calls, |a.calls|)
    ensures
      var post := Polled(d, Some(r), c, now, maxAge);
      if post.Some? then
        && Missing(d, r, post.value, a, b, now, maxAge)
        && (r.instanceId != "" && r.missingPolls + 1 >= 3 ==> d.KubeVirt? && Answered(b.calls, |a.calls|, r.instanceId, false))
      else
        && r.instanceId != "" && r.missingPolls + 1 >= 3
        && (d.KubeVirt? ==> Answered(b.calls, |a.calls|, r.instanceId, true))
  {
    hide Answered, Partitioned, Seen;
  }

  // A record whose sandbox is not listed counts one miss; it is forgotten at the
  // third, under KubeVirt exactly if the cleanup it then owes is confirmed. A
  // reservation is left alone, and no record comes up.
  lemma UnlistedIsKept(
    d: Driver, a: Moment, b: Moment, listing: seq<Instance>, cs: map<string, Choice>, now: Time, maxAge: int, id: string)
    requires PollRan(d, a, b, listing, cs, now, maxAge)
    requires id in a.records ==> Redacted(a.records[id])
    requires !Shown(d, listing, id)
    ensures id !in a.records ==> id !in b.records
    ensures id in a.records && id in b.records ==> Missing(d, a.records[id], b.records[id], a, b, now, maxAge)
    ensures
      id in a.records ==>
        var r := a.records[id];
        if id in b.records then
          r.instanceId != "" && r.missingPolls + 1 >= 3 ==> d.KubeVirt? && Answered(b.calls, |a.calls|, r.instanceId, false)
        else
          r.instanceId != "" && r.missingPolls + 1 >= 3 && (d.KubeVirt? ==> Terminated(b.calls, |a.calls|, r.instanceId))
  {
    ShownIsSeen(d, listing, cs, id);
    PolledAt(d, a, b, listing, cs, now, maxAge, id);
    hide Follows, Accounted, Polled, PollRel, Seen, Missing, Answered;
    if id in cs {
      if id in a.records {
        MissedOnce(d, a.records[id], cs[id], a, b, Matches(listing, id), now, maxAge);
      } else {
        NothingSeen(d, cs[id], now, maxAge);
      }
    }
  }

  // ---- Fail-closed -----------------------------------------------------------------------------

  // A record that is too old when a poll ends, bound and not terminated, is
  // leaving, or the Terminate of its instance failed in this poll.
  lemma TooOldIsLeaving(
    d: Driver, a: Moment, b: Moment, listing: seq<Instance>, cs: map<string, Choice>, now: Time, maxAge: int, id: string)
    requires PollRan(d, a, b, listing, cs, now, maxAge) && maxAge < 0x7FFF_FFFF_FFFF_FFFF
    requires id in b.records && b.records[id].instanceId != "" && b.records[id].state != "terminated"
    requires TooOld(b.records[id].createdAt, now, maxAge)
    ensures b.records[id].state == Leaving(d) || Answered(b.calls, |a.calls|, b.records[id].instanceId, false)
  {
    hide PollRan, Answered;
    ExpiredIfTooOld(b.records[id], now, maxAge);
    ExpiredAreHandled(d, a, b, listing, cs, now, maxAge, id);
    hide IsExpired, TooOld;
  }

  lemma ExpiredIfTooOld(r: Record, now: Time, maxAge: int)
    requires maxAge < 0x7FFF_FFFF_FFFF_FFFF
    ensures IsExpired(r, now, maxAge) <==> TooOld(r.createdAt, now, maxAge) && r.state != "terminated"
  {
  }
}
