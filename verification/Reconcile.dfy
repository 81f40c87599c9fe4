// One reconciliation as it acts on a single sandbox id: the listing loop, the
// absence loop and the expiry loop. Sandboxes do not affect each other, so a
// poll that completes is this function at every id. The two drivers differ in
// the instance they keep, in the state they take over, and in whether an absent
// sandbox is forgotten only after a confirmed cleanup.
module Reconcile {
  import opened Records
  import opened Store
  import opened Fleet
  import opened Transitions

  datatype Driver = KubeVirt | EC2

  const DELETING := "deleting"
  const SHUTTING_DOWN := "shutting-down"
  const TERMINATED := "terminated"

  // The state a driver gives an instance it asked the provider to end.
  function Goal(d: Driver): string {
    if d.KubeVirt? then DELETING else SHUTTING_DOWN
  }

  // Nothing is left of an instance in such a state.
  predicate Down(d: Driver, state: string) {
    if d.KubeVirt? then IsTerminal(state) else state == TERMINATED
  }

  // KubeVirt ignores instances that are down; EC2 counts them as listed.
  predicate Seen(d: Driver, c: Choice) {
    if d.KubeVirt? then Live(c.sorted) != [] else c.sorted != []
  }

  // The instance a driver keeps for a sandbox it has seen.
  function Kept(d: Driver, c: Choice): Instance
    requires Seen(d, c)
  {
    if d.KubeVirt? then Live(c.sorted)[KeeperIndex(Live(c.sorted))] else c.sorted[0]
  }

  // Under KubeVirt a requested stop or delete is not undone by a listing that
  // still says Running.
  function Observed(d: Driver, rec: Record, x: Instance): string {
    if d.KubeVirt? && (rec.state == "deleting" || rec.state == "stopping") && x.state == "Running" then rec.state else x.state
  }

  predicate NeedsUpdate(d: Driver, rec: Record, x: Instance) {
    rec.state != Observed(d, rec, x) || rec.instanceId != x.id || rec.missingPolls != 0
  }

  function ListStep(d: Driver, pre: Option<Record>, c: Choice, maxAge: int): Option<Record> {
    if !Seen(d, c) then pre
    else
      var x := Kept(d, c);
      if Down(d, x.state) then None
      else
        match pre
        case None =>
          Some(Redact(Recovered(x, c.statusAt, c.comparedAt, c.clampedAt, maxAge).(lease := c.lease)))
        case Some(rec) =>
          if NeedsUpdate(d, rec, x) then Some(Redact(Refresh(rec, x, Observed(d, rec, x), c.statusAt))) else pre
  }

  // A Terminate must confirm the cleanup of this absent sandbox.
  predicate OwesCleanup(d: Driver, pre: Option<Record>, seen: bool) {
    d.KubeVirt? && !seen && pre.Some? && pre.value.Bound() && pre.value.missingPolls + 1 >= MISSING_POLL_THRESHOLD
  }

  // A Terminate is due for this expired sandbox.
  predicate OwesExpiry(d: Driver, pre: Option<Record>, now: Time, maxAge: int) {
    pre.Some? && Expires(pre.value, Goal(d), now, maxAge)
  }

  function Counted(d: Driver, pre: Option<Record>, c: Choice, maxAge: int): Option<Record> {
    CountStep(ListStep(d, pre, c, maxAge), Seen(d, c), c.cleanupOk)
  }

  function Polled(d: Driver, pre: Option<Record>, c: Choice, now: Time, maxAge: int): Option<Record> {
    ExpireStep(Counted(d, pre, c, maxAge), Goal(d), now, maxAge, c.expireOk, c.expiredAt)
  }

  // A poll that returned nil took the registry from `pre` to `post`.
  ghost predicate PollRel(
    d: Driver, pre: map<string, Record>, post: map<string, Record>, listing: seq<Instance>,
    cs: map<string, Choice>, now: Time, maxAge: int)
  {
    && pre.Keys <= cs.Keys && post.Keys <= cs.Keys
    && Covers(listing, cs)
    && (forall id :: id in cs ==> Lookup(post, id) == Polled(d, Lookup(pre, id), cs[id], now, maxAge))
  }

  // ---- What the drivers keep, without sorting ----------------------------------

  ghost predicate ListedLive(listing: seq<Instance>, id: string) {
    exists x :: x in Matches(listing, id) && !IsTerminal(x.state)
  }

  ghost predicate Listed(d: Driver, listing: seq<Instance>, id: string) {
    if d.KubeVirt? then ListedLive(listing, id) else Matches(listing, id) != []
  }

  ghost predicate IsOldest(x: Instance, group: seq<Instance>) {
    x in group && forall y :: y in group ==> OlderEq(x, y)
  }

  ghost predicate IsKept(d: Driver, x: Instance, group: seq<Instance>) {
    if d.KubeVirt? then IsKeeper(x, group) else IsOldest(x, group)
  }

  // The sandboxes a poll should track, each bound to such an instance.
  ghost predicate Target(d: Driver, listing: seq<Instance>, id: string) {
    exists x :: IsKept(d, x, Matches(listing, id)) && !Down(d, x.state)
  }

  lemma KeptUnique(d: Driver, x: Instance, y: Instance, group: seq<Instance>)
    requires IsKept(d, x, group) && IsKept(d, y, group) && DistinctIds(group)
    ensures x == y
  {
    if d.KubeVirt? { KeeperUnique(x, y, group); } else { StringLeAntisymmetric(x.id, y.id); }
  }

  lemma DistinctMatches(listing: seq<Instance>, id: string)
    requires DistinctIds(listing)
    ensures DistinctIds(Matches(listing, id))
  {
    MatchesMembers(listing, id);
  }

  lemma SeenIffListed(d: Driver, listing: seq<Instance>, cs: map<string, Choice>, id: string)
    requires Covers(listing, cs)
    ensures id in cs ==> (Seen(d, cs[id]) <==> Listed(d, listing, id))
    ensures id !in cs ==> Matches(listing, id) == [] && !Listed(d, listing, id)
  {
    if id in cs {
      SameMembers(cs[id].sorted, Matches(listing, id));
      LiveMembers(cs[id].sorted);
      if d.EC2? {
        assert |cs[id].sorted| == |multiset(cs[id].sorted)| == |multiset(Matches(listing, id))| == |Matches(listing, id)|;
      } else if Seen(d, cs[id]) {
        assert Live(cs[id].sorted)[0] in Live(cs[id].sorted);
      }
    } else {
      MatchesMembers(listing, id);
      if Matches(listing, id) != [] { HasMember(Matches(listing, id)); }
    }
  }

  lemma KeptListed(d: Driver, listing: seq<Instance>, cs: map<string, Choice>, id: string)
    requires Covers(listing, cs) && id in cs && Seen(d, cs[id])
    ensures IsKept(d, Kept(d, cs[id]), Matches(listing, id))
    ensures Kept(d, cs[id]) in listing && Kept(d, cs[id]).sandboxId == id
    ensures d.KubeVirt? ==> !Down(d, Kept(d, cs[id]).state)
  {
    var s, group := cs[id].sorted, Matches(listing, id);
    MatchesMembers(listing, id);
    SameMembers(s, group);
    if d.KubeVirt? {
      KeeperCharacterised(s, group);
    } else {
      assert s[0] in s;
      forall y | y in group ensures OlderEq(s[0], y) { HeadIsOldest(s, y); }
    }
  }

  // Under KubeVirt the sandboxes to track are those with a live instance; under
  // EC2 those whose oldest listed instance is not terminated.
  lemma TargetIsKept(d: Driver, listing: seq<Instance>, cs: map<string, Choice>, id: string)
    requires Covers(listing, cs) && (d.EC2? ==> DistinctIds(listing))
    ensures Target(d, listing, id) <==> id in cs && Seen(d, cs[id]) && !Down(d, Kept(d, cs[id]).state)
    ensures d.KubeVirt? ==> (Target(d, listing, id) <==> ListedLive(listing, id))
  {
    SeenIffListed(d, listing, cs, id);
    if id in cs && Seen(d, cs[id]) {
      KeptListed(d, listing, cs, id);
      if d.EC2? && Target(d, listing, id) {
        var x :| IsKept(d, x, Matches(listing, id)) && !Down(d, x.state);
        DistinctMatches(listing, id);
        KeptUnique(d, x, Kept(d, cs[id]), Matches(listing, id));
      }
    }
  }

  // ---- One poll at one sandbox --------------------------------------------------

  ghost predicate NamedInstances(listing: seq<Instance>) {
    forall x :: x in listing ==> x.id != ""
  }

  lemma SeenIsTracked(d: Driver, pre: Option<Record>, c: Choice, now: Time, maxAge: int)
    requires Seen(d, c)
    ensures
      var post := Polled(d, pre, c, now, maxAge);
      && (post.Some? <==> !Down(d, Kept(d, c).state))
      && (post.Some? ==> post.value.instanceId == Kept(d, c).id && post.value.missingPolls == 0)
  {
  }

  lemma UnseenIsCounted(d: Driver, pre: Option<Record>, c: Choice, now: Time, maxAge: int)
    requires !Seen(d, c)
    ensures
      var post := Polled(d, pre, c, now, maxAge);
      && (post.Some? ==> pre.Some? && post.value.instanceId == pre.value.instanceId)
      && (post.Some? && post.value.Bound() ==> post.value.missingPolls == pre.value.missingPolls + 1)
      && (post.Some? && post.value.Bound() && c.cleanupOk ==> post.value.missingPolls < MISSING_POLL_THRESHOLD)
      && (pre.Some? && !pre.value.Bound() ==> post == pre)
      && (pre.Some? && post.None? ==> pre.value.Bound() && c.cleanupOk && pre.value.missingPolls + 1 >= MISSING_POLL_THRESHOLD)
  {
  }

  lemma PolledRedacted(d: Driver, pre: Option<Record>, c: Choice, now: Time, maxAge: int)
    requires pre.Some? ==> Redacted(pre.value)
    ensures Polled(d, pre, c, now, maxAge).Some? ==> Redacted(Polled(d, pre, c, now, maxAge).value)
  {
  }

  // After one poll a listed sandbox is tracked exactly if the instance its
  // driver keeps is not down, and then bound to it. Under EC2 a running
  // duplicate does not save a sandbox whose oldest instance is terminated.
  lemma PollTracksKept(
    d: Driver, pre: map<string, Record>, post: map<string, Record>, listing: seq<Instance>,
    cs: map<string, Choice>, now: Time, maxAge: int, id: string)
    requires PollRel(d, pre, post, listing, cs, now, maxAge) && NamedInstances(listing)
    requires Listed(d, listing, id) && (d.EC2? ==> DistinctIds(listing))
    ensures id in post <==> Target(d, listing, id)
    ensures id in post ==> post[id].Bound() && post[id].missingPolls == 0
    ensures id in post ==> exists x :: IsKept(d, x, Matches(listing, id)) && post[id].instanceId == x.id
  {
    hide Polled, Seen, Kept, Target, Listed;
    SeenIffListed(d, listing, cs, id);
    TargetIsKept(d, listing, cs, id);
    KeptListed(d, listing, cs, id);
    SeenIsTracked(d, Lookup(pre, id), cs[id], now, maxAge);
  }

  lemma PollUnlisted(
    d: Driver, pre: map<string, Record>, post: map<string, Record>, listing: seq<Instance>,
    cs: map<string, Choice>, now: Time, maxAge: int, id: string)
    requires PollRel(d, pre, post, listing, cs, now, maxAge) && !Listed(d, listing, id)
    ensures id in post ==> id in pre && post[id].instanceId == pre[id].instanceId
    ensures id in post && post[id].Bound() ==> post[id].missingPolls == pre[id].missingPolls + 1
    ensures id in post && post[id].Bound() && id in cs && cs[id].cleanupOk ==> post[id].missingPolls < MISSING_POLL_THRESHOLD
    ensures id in pre && id !in post ==>
              pre[id].Bound() && pre[id].missingPolls + 1 >= MISSING_POLL_THRESHOLD && id in cs && cs[id].cleanupOk
    ensures id in pre && !pre[id].Bound() ==> id in post && post[id] == pre[id]
  {
    hide Polled, Seen, Kept, Listed;
    SeenIffListed(d, listing, cs, id);
    if id in cs { UnseenIsCounted(d, Lookup(pre, id), cs[id], now, maxAge); }
  }

  // An older terminated instance next to a running one: the running one is
  // listed, but the sandbox is not tracked after any EC2 poll.
  lemma TerminatedElderWins(
    pre: map<string, Record>, post: map<string, Record>, cs: map<string, Choice>, now: Time, maxAge: int,
    elder: Instance, running: Instance)
    requires elder.state == TERMINATED && running.state == "running"
    requires elder.sandboxId == running.sandboxId != "" && elder.createdAt < running.createdAt
    requires elder.id != running.id && elder.id != "" && running.id != ""
    requires PollRel(EC2, pre, post, [running, elder], cs, now, maxAge)
    ensures running.sandboxId !in post
  {
    hide *;
    var listing, id := [running, elder], running.sandboxId;
    BothMatch(running, elder);
    BothNamed(running, elder);
    ElderIsOldest(elder, running);
    PollTracksKept(EC2, pre, post, listing, cs, now, maxAge, id);
  }

  lemma BothMatch(a: Instance, b: Instance)
    requires a.sandboxId == b.sandboxId != ""
    ensures Matches([a, b], a.sandboxId) == [a, b]
  {
    assert [a, b][..1] == [a];
    assert [a][..0] == [];
    assert Group([a], a.sandboxId) == [a];
  }

  lemma BothNamed(a: Instance, b: Instance)
    requires a.id != b.id && a.id != "" && b.id != ""
    ensures DistinctIds([a, b]) && NamedInstances([a, b])
  {
  }

  lemma ElderIsOldest(elder: Instance, running: Instance)
    requires elder.sandboxId == running.sandboxId && elder.createdAt < running.createdAt && elder.state == TERMINATED
    requires Matches([running, elder], running.sandboxId) == [running, elder]
    ensures Listed(EC2, [running, elder], running.sandboxId) && !Target(EC2, [running, elder], running.sandboxId)
  {
    var group := Matches([running, elder], running.sandboxId);
    assert elder in group;
    forall x | IsKept(EC2, x, group) ensures x.state == TERMINATED { assert OlderEq(x, elder); }
  }

  // ---- Convergence ---------------------------------------------------------------

  ghost predicate CleanupsSucceed(cs: map<string, Choice>) {
    forall id :: id in cs ==> cs[id].cleanupOk
  }

  // Three polls of one listing, with cleanups that succeed, leave exactly the
  // target sandboxes bound, each to the instance its driver keeps.
  lemma ConvergesInThreePolls(
    d: Driver, r: seq<map<string, Record>>, listing: seq<Instance>, cs: seq<map<string, Choice>>, now: seq<Time>, maxAge: int)
    requires |r| == 4 && |cs| == |now| == 3 && NamedInstances(listing) && (d.EC2? ==> DistinctIds(listing))
    requires forall i :: 0 <= i < 3 ==> PollRel(d, r[i], r[i + 1], listing, cs[i], now[i], maxAge) && CleanupsSucceed(cs[i])
    ensures forall id :: id in r[3] && r[3][id].Bound() <==> Target(d, listing, id)
    ensures forall id :: Target(d, listing, id) ==>
              exists x :: IsKept(d, x, Matches(listing, id)) && r[3][id].instanceId == x.id
  {
    forall id
      ensures id in r[3] && r[3][id].Bound() <==> Target(d, listing, id)
      ensures Target(d, listing, id) ==> exists x :: IsKept(d, x, Matches(listing, id)) && r[3][id].instanceId == x.id
    {
      hide Target, Listed, IsKept;
      assert PollRel(d, r[2], r[3], listing, cs[2], now[2], maxAge);
      if Listed(d, listing, id) {
        PollTracksKept(d, r[2], r[3], listing, cs[2], now[2], maxAge, id);
      } else {
        SeenIffListed(d, listing, cs[2], id);
        TargetIsKept(d, listing, cs[2], id);
        PollUnlisted(d, r[0], r[1], listing, cs[0], now[0], maxAge, id);
        PollUnlisted(d, r[1], r[2], listing, cs[1], now[1], maxAge, id);
        PollUnlisted(d, r[2], r[3], listing, cs[2], now[2], maxAge, id);
      }
    }
  }

  // ---- Stability -------------------------------------------------------------------

  // A record without the time of its last status.
  function Timeless(r: Option<Record>): Option<Record> {
    match r
    case None => None
    case Some(rec) =>
      Some(if rec.lastStatus.Some? then rec.(lastStatus := Some(rec.lastStatus.value.(transition := 0))) else rec)
  }

  predicate AllAt(c: Choice, now: Time) {
    c.statusAt == c.comparedAt == c.clampedAt == c.expiredAt == now
  }

  lemma ListedState(d: Driver, pre: Option<Record>, c: Choice, maxAge: int)
    requires pre.Some? ==> Redacted(pre.value)
    requires Seen(d, c) && !Down(d, Kept(d, c).state)
    ensures
      var listed := ListStep(d, pre, c, maxAge);
      && listed.Some? && Redacted(listed.value)
      && listed.value.instanceId == Kept(d, c).id && listed.value.missingPolls == 0
      && listed.value.state == (if pre.None? then Kept(d, c).state else Observed(d, pre.value, Kept(d, c)))
  {
  }

  lemma StillDue(a: Record, b: Record, now: Time, maxAge: int)
    requires IsExpired(a, now, maxAge) && a.state == b.state && a.createdAt == b.createdAt
    ensures IsExpired(b, now, maxAge) && a.createdAt != ZERO_TIME
  {
  }

  lemma DueIsDated(a: Record, now: Time, maxAge: int)
    requires IsExpired(a, now, maxAge)
    ensures a.createdAt != ZERO_TIME
  {
  }

  // A second poll of the same instances at the same time. Under EC2 an expired
  // sandbox is shown running and shut down again; either way the record ends as
  // it was but for status times.
  lemma SecondPollIsIdle(d: Driver, pre: Option<Record>, c1: Choice, c2: Choice, now: Time, maxAge: int)
    requires pre.Some? ==> Redacted(pre.value)
    requires c1.sorted == c2.sorted && Seen(d, c1) && AllAt(c1, now) && AllAt(c2, now)
    requires c1.expireOk && c2.expireOk
    ensures Timeless(Polled(d, Polled(d, pre, c1, now, maxAge), c2, now, maxAge)) == Timeless(Polled(d, pre, c1, now, maxAge))
  {
    hide IsExpired, KeeperIndex;
    var x := Kept(d, c1);
    assert Kept(d, c2) == x;
    if !Down(d, x.state) {
      var listed := ListStep(d, pre, c1, maxAge);
      ListedState(d, pre, c1, maxAge);
      var first := ExpireStep(listed, Goal(d), now, maxAge, true, now);
      assert Polled(d, pre, c1, now, maxAge) == first;
      var relisted := ListStep(d, first, c2, maxAge);
      ListedState(d, first, c2, maxAge);
      assert Polled(d, first, c2, now, maxAge) == ExpireStep(relisted, Goal(d), now, maxAge, true, now);
      if Expires(listed.value, Goal(d), now, maxAge) {
        DueIsDated(listed.value, now, maxAge);
        DueAgain(d, listed.value, x, now, maxAge);
      } else {
        assert first == listed;
        assert !NeedsUpdate(d, listed.value, x);
      }
    }
  }

  lemma DueAgain(d: Driver, listed: Record, x: Instance, now: Time, maxAge: int)
    requires Redacted(listed) && Expires(listed, Goal(d), now, maxAge) && listed.createdAt != ZERO_TIME
    requires listed.instanceId == x.id && listed.missingPolls == 0
    requires listed.state == x.state || listed.state == Observed(d, listed, x)
    requires d.EC2? ==> listed.state == x.state
    ensures
      var first := Redact(WithState(listed, Goal(d), now));
      var relisted := if NeedsUpdate(d, first, x) then Redact(Refresh(first, x, Observed(d, first, x), now)) else first;
      Timeless(ExpireStep(Some(relisted), Goal(d), now, maxAge, true, now)) == Timeless(Some(first))
  {
    hide IsExpired;
    var first := Redact(WithState(listed, Goal(d), now));
    var relisted := if NeedsUpdate(d, first, x) then Redact(Refresh(first, x, Observed(d, first, x), now)) else first;
    if relisted.state == listed.state { StillDue(listed, relisted, now, maxAge); }
  }

  ghost predicate Steady(cs: map<string, Choice>, now: Time) {
    forall id :: id in cs ==> cs[id].cleanupOk && cs[id].expireOk && AllAt(cs[id], now)
  }

  lemma SameSort(listing: seq<Instance>, other: seq<Instance>, cs: map<string, Choice>, ds: map<string, Choice>, id: string)
    requires Covers(listing, cs) && Covers(other, ds) && id in cs && id in ds && DistinctIds(listing)
    requires multiset(listing) == multiset(other)
    ensures cs[id].sorted == ds[id].sorted
  {
    DistinctMatches(listing, id);
    GroupPermutes(listing, other, id);
    SameMembers(cs[id].sorted, Matches(listing, id));
    SortUnique(cs[id].sorted, ds[id].sorted);
  }

  // Once the registry agrees with the listing, another poll at the same time
  // changes nothing but status times.
  lemma StaysConverged(
    d: Driver, r0: map<string, Record>, r1: map<string, Record>, r2: map<string, Record>, listing: seq<Instance>,
    cs: map<string, Choice>, ds: map<string, Choice>, now: Time, maxAge: int)
    requires PollRel(d, r0, r1, listing, cs, now, maxAge) && PollRel(d, r1, r2, listing, ds, now, maxAge)
    requires Steady(cs, now) && Steady(ds, now) && DistinctIds(listing)
    requires forall k :: k in r0 ==> Redacted(r0[k])
    requires forall id :: id in r1 && r1[id].Bound() ==> Target(d, listing, id)
    ensures forall id :: Timeless(Lookup(r2, id)) == Timeless(Lookup(r1, id))
  {
    forall id ensures Timeless(Lookup(r2, id)) == Timeless(Lookup(r1, id)) {
      hide Polled, Seen, Timeless, Target, Listed;
      SeenIffListed(d, listing, cs, id);
      SeenIffListed(d, listing, ds, id);
      if Listed(d, listing, id) {
        SameSort(listing, listing, cs, ds, id);
        SecondPollIsIdle(d, Lookup(r0, id), cs[id], ds[id], now, maxAge);
      } else {
        TargetIsKept(d, listing, ds, id);
        PollUnlisted(d, r1, r2, listing, ds, now, maxAge, id);
      }
    }
  }

  // ---- Order independence -------------------------------------------------------------

  function Leaseless(r: Option<Record>): Option<Record> {
    match r
    case None => None
    case Some(rec) => Some(rec.(lease := 0))
  }

  // The outcomes that matter: of the Terminate calls a poll owes.
  ghost predicate SameOutcomes(d: Driver, pre: Option<Record>, c: Choice, e: Choice, now: Time, maxAge: int) {
    && c.(sorted := [], lease := 0, cleanupOk := true, expireOk := true) == e.(sorted := [], lease := 0, cleanupOk := true, expireOk := true)
    && (OwesCleanup(d, ListStep(d, pre, c, maxAge), Seen(d, c)) ==> c.cleanupOk == e.cleanupOk)
    && (OwesExpiry(d, Counted(d, pre, c, maxAge), now, maxAge) ==> c.expireOk == e.expireOk)
    && (d.EC2? ==> c.cleanupOk && e.cleanupOk)
  }

  lemma SameChoicesSamePoll(d: Driver, pre: Option<Record>, c: Choice, e: Choice, now: Time, maxAge: int)
    requires c.sorted == e.sorted && SameOutcomes(d, pre, c, e, now, maxAge)
    ensures Leaseless(Polled(d, pre, c, now, maxAge)) == Leaseless(Polled(d, pre, e, now, maxAge))
  {
    hide IsExpired, KeeperIndex, Recovered, Refresh, NeedsUpdate;
    SameListing(d, pre, c, e, maxAge);
    var a, b := ListStep(d, pre, c, maxAge), ListStep(d, pre, e, maxAge);
    assert Seen(d, c) == Seen(d, e);
    SameCounting(d, a, b, Seen(d, c), c.cleanupOk, e.cleanupOk);
    SameExpiry(d, Counted(d, pre, c, maxAge), Counted(d, pre, e, maxAge), now, maxAge, c.expireOk, e.expireOk, c.expiredAt);
  }

  lemma SameListing(d: Driver, pre: Option<Record>, c: Choice, e: Choice, maxAge: int)
    requires c.sorted == e.sorted && c.statusAt == e.statusAt && c.comparedAt == e.comparedAt && c.clampedAt == e.clampedAt
    ensures Leaseless(ListStep(d, pre, c, maxAge)) == Leaseless(ListStep(d, pre, e, maxAge))
    ensures ListStep(d, pre, c, maxAge).Some? <==> ListStep(d, pre, e, maxAge).Some?
  {
  }

  lemma SameCounting(d: Driver, a: Option<Record>, b: Option<Record>, seen: bool, ok: bool, ok': bool)
    requires Leaseless(a) == Leaseless(b)
    requires OwesCleanup(d, a, seen) ==> ok == ok'
    requires d.EC2? ==> ok && ok'
    ensures Leaseless(CountStep(a, seen, ok)) == Leaseless(CountStep(b, seen, ok'))
  {
  }

  lemma SameExpiry(
    d: Driver, a: Option<Record>, b: Option<Record>, now: Time, maxAge: int, ok: bool, ok': bool, at: Time)
    requires Leaseless(a) == Leaseless(b)
    requires OwesExpiry(d, a, now, maxAge) ==> ok == ok'
    ensures Leaseless(ExpireStep(a, Goal(d), now, maxAge, ok, at)) == Leaseless(ExpireStep(b, Goal(d), now, maxAge, ok', at))
  {
    if a.Some? { SameDue(a.value, b.value, now, maxAge); }
    hide IsExpired;
  }

  lemma SameDue(a: Record, b: Record, now: Time, maxAge: int)
    requires a.createdAt == b.createdAt && a.state == b.state
    ensures IsExpired(a, now, maxAge) == IsExpired(b, now, maxAge)
  {
  }

  lemma NothingSeen(d: Driver, c: Choice, now: Time, maxAge: int)
    requires !Seen(d, c)
    ensures Polled(d, None, c, now, maxAge) == None
  {
  }

  // Two complete polls of the same instances, listed in any order and visited
  // in any order, leave the same records up to fresh lease numbers.
  lemma OrderIndependent(
    d: Driver, pre: map<string, Record>, post1: map<string, Record>, post2: map<string, Record>,
    listing1: seq<Instance>, listing2: seq<Instance>,
    cs1: map<string, Choice>, cs2: map<string, Choice>, now: Time, maxAge: int)
    requires PollRel(d, pre, post1, listing1, cs1, now, maxAge) && PollRel(d, pre, post2, listing2, cs2, now, maxAge)
    requires multiset(listing1) == multiset(listing2) && DistinctIds(listing1)
    requires forall id :: id in cs1 && id in cs2 && cs1[id].sorted == cs2[id].sorted ==>
               SameOutcomes(d, Lookup(pre, id), cs1[id], cs2[id], now, maxAge)
    ensures forall id :: Leaseless(Lookup(post1, id)) == Leaseless(Lookup(post2, id))
  {
    forall id ensures Leaseless(Lookup(post1, id)) == Leaseless(Lookup(post2, id)) {
      hide Polled, Seen, Listed, SameOutcomes, Leaseless;
      SeenIffListed(d, listing1, cs1, id);
      SeenIffListed(d, listing2, cs2, id);
      if id in cs1 && id in cs2 {
        SameSort(listing1, listing2, cs1, cs2, id);
        SameChoicesSamePoll(d, Lookup(pre, id), cs1[id], cs2[id], now, maxAge);
      } else {
        SameListed(d, listing1, listing2, id);
        if id in cs1 {
          NothingSeen(d, cs1[id], now, maxAge);
        } else if id in cs2 {
          NothingSeen(d, cs2[id], now, maxAge);
        }
      }
    }
  }

  lemma SameListed(d: Driver, listing1: seq<Instance>, listing2: seq<Instance>, id: string)
    requires multiset(listing1) == multiset(listing2)
    ensures Listed(d, listing1, id) <==> Listed(d, listing2, id)
  {
    GroupPermutes(listing1, listing2, id);
    SameMembers(Matches(listing1, id), Matches(listing2, id));
    assert |Matches(listing1, id)| == |multiset(Matches(listing1, id))| == |Matches(listing2, id)|;
  }

  // ---- Miss counting over histories of polls -------------------------------------------

  datatype Round =
    | ListFailed
    | Aborted(listing: seq<Instance>, cs: map<string, Choice>)
    | Reconciled(listing: seq<Instance>, cs: map<string, Choice>, now: Time)
    | Calls

  ghost predicate RoundRel(d: Driver, pre: map<string, Record>, post: map<string, Record>, round: Round, maxAge: int) {
    match round
    case ListFailed => post == pre
    case Aborted(listing, cs) => AbortRel(d, pre, post, listing, cs, maxAge)
    case Reconciled(listing, cs, now) => PollRel(d, pre, post, listing, cs, now, maxAge)
    case Calls => CountersKept(pre, post)
  }

  // What RPCs between polls do to miss counters.
  ghost predicate CountersKept(pre: map<string, Record>, post: map<string, Record>) {
    forall id :: id in post ==> post[id].missingPolls == 0 || (id in pre && post[id].missingPolls == pre[id].missingPolls)
  }

  lemma CountersKeptTrans(a: map<string, Record>, b: map<string, Record>, c: map<string, Record>)
    requires CountersKept(a, b) && CountersKept(b, c)
    ensures CountersKept(a, c)
  {
  }

  // A poll that stopped at a failed duplicate termination: the sandboxes it
  // had reached, those in `cs`, are listed and updated, the others untouched.
  ghost predicate AbortRel(
    d: Driver, pre: map<string, Record>, post: map<string, Record>, listing: seq<Instance>, cs: map<string, Choice>, maxAge: int)
  {
    && (forall id :: id in cs ==> SortedFrom(cs[id].sorted, Matches(listing, id)))
    && (forall id :: id in cs ==> Lookup(post, id) == ListStep(d, Lookup(pre, id), cs[id], maxAge))
    && (forall id :: id !in cs ==> Lookup(post, id) == Lookup(pre, id))
  }

  // Complete listings at the end of the history that did not show the sandbox;
  // failed and aborted polls are not complete listings.
  ghost function TrailingMisses(d: Driver, history: seq<Round>, id: string): nat
    decreases |history|
  {
    if history == [] then 0
    else
      var rest := history[..|history| - 1];
      match history[|history| - 1]
      case Reconciled(listing, _, _) => if Listed(d, listing, id) then 0 else TrailingMisses(d, rest, id) + 1
      case _ => TrailingMisses(d, rest, id)
  }

  ghost predicate Rounds(d: Driver, r: seq<map<string, Record>>, history: seq<Round>, maxAge: int) {
    |r| == |history| + 1 && forall i :: 0 <= i < |history| ==> RoundRel(d, r[i], r[i + 1], history[i], maxAge)
  }

  // Rounds from a registry whose counters are 0 on, as after the first poll.
  ghost predicate History(d: Driver, r: seq<map<string, Record>>, history: seq<Round>, maxAge: int) {
    Rounds(d, r, history, maxAge) && forall id :: id in r[0] ==> r[0][id].missingPolls == 0
  }

  // A poll forgot the sandbox because the instance its driver keeps is down.
  ghost predicate ShownDown(d: Driver, round: Round, id: string) {
    && (round.Reconciled? || round.Aborted?)
    && id in round.cs && Seen(d, round.cs[id]) && Down(d, Kept(d, round.cs[id]).state)
  }

  // Under KubeVirt that does not happen: an instance that is down is not kept.
  lemma KubeVirtKeepsNothingDown(r: map<string, Record>, post: map<string, Record>, round: Round, maxAge: int, id: string)
    requires RoundRel(KubeVirt, r, post, round, maxAge)
    ensures !ShownDown(KubeVirt, round, id)
  {
    if (round.Reconciled? || round.Aborted?) && id in round.cs && Seen(KubeVirt, round.cs[id]) {
      assert SortedFrom(round.cs[id].sorted, Matches(round.listing, id));
      KeeperCharacterised(round.cs[id].sorted, Matches(round.listing, id));
    }
  }

  lemma AbortCounts(d: Driver, pre: Option<Record>, c: Choice, maxAge: int)
    ensures
      var post := ListStep(d, pre, c, maxAge);
      && (post.Some? && post.value.missingPolls > 0 ==> pre == post)
      && (pre.Some? && post.None? ==> Seen(d, c) && Down(d, Kept(d, c).state))
  {
  }

  // How one round moves one miss counter, and when it removes the record.
  lemma RoundCounts(d: Driver, pre: map<string, Record>, post: map<string, Record>, round: Round, maxAge: int, id: string)
    requires RoundRel(d, pre, post, round, maxAge)
    ensures id in post && post[id].missingPolls > 0 ==>
              id in pre && post[id].missingPolls <= pre[id].missingPolls +
                (if round.Reconciled? && !Listed(d, round.listing, id) then 1 else 0)
    ensures round.Reconciled? && Listed(d, round.listing, id) && id in post ==> post[id].missingPolls == 0
    ensures id in pre && id !in post && !round.Calls? && !ShownDown(d, round, id) ==>
              round.Reconciled? && !Listed(d, round.listing, id) && id in round.cs && round.cs[id].cleanupOk
              && pre[id].Bound() && pre[id].missingPolls + 1 >= MISSING_POLL_THRESHOLD
  {
    hide Polled, Seen, ListStep, Kept, Listed;
    match round
    case ListFailed =>
    case Calls =>
    case Aborted(listing, cs) =>
      if id in cs { AbortCounts(d, Lookup(pre, id), cs[id], maxAge); }
    case Reconciled(listing, cs, now) =>
      SeenIffListed(d, listing, cs, id);
      if id in cs {
        if Seen(d, cs[id]) {
          SeenIsTracked(d, Lookup(pre, id), cs[id], now, maxAge);
        } else {
          UnseenIsCounted(d, Lookup(pre, id), cs[id], now, maxAge);
        }
      }
  }

  lemma {:induction false} MissesAreBounded(
    d: Driver, r: seq<map<string, Record>>, history: seq<Round>, maxAge: int, n: nat, id: string)
    requires History(d, r, history, maxAge) && n < |r|
    ensures id in r[n] ==> r[n][id].missingPolls <= TrailingMisses(d, history[..n], id)
  {
    hide RoundRel, Listed;
    if n > 0 {
      MissesAreBounded(d, r, history, maxAge, n - 1, id);
      assert history[..n][..n - 1] == history[..n - 1];
      RoundCounts(d, r[n - 1], r[n], history[n - 1], maxAge, id);
    }
  }

  // Three complete listings up to this one did not show the sandbox, and no
  // complete listing since the first of them did.
  ghost predicate MissedThrice(d: Driver, history: seq<Round>, n: nat, id: string)
    requires n < |history|
  {
    exists i, j :: 0 <= i < j < n && MissedAt(d, history, i, id) && MissedAt(d, history, j, id) && MissedAt(d, history, n, id)
      && forall k :: i <= k <= n && history[k].Reconciled? ==> !Listed(d, history[k].listing, id)
  }

  ghost predicate MissedAt(d: Driver, history: seq<Round>, i: nat, id: string)
    requires i < |history|
  {
    history[i].Reconciled? && !Listed(d, history[i].listing, id)
  }

  // Where the last so many of the trailing misses are.
  lemma {:induction false} MissesSince(d: Driver, history: seq<Round>, id: string, count: nat) returns (at: seq<nat>)
    requires count <= TrailingMisses(d, history, id)
    ensures |at| == count && (forall i, j :: 0 <= i < j < count ==> at[i] < at[j])
    ensures forall i :: 0 <= i < count ==> at[i] < |history| && MissedAt(d, history, at[i], id)
    ensures count > 0 ==> forall k :: at[0] <= k < |history| && history[k].Reconciled? ==> !Listed(d, history[k].listing, id)
    decreases |history|
  {
    if count == 0 {
      at := [];
    } else {
      var n := |history| - 1;
      var init := history[..n];
      if MissedAt(d, history, n, id) {
        at := MissesSince(d, init, id, count - 1);
        at := at + [n];
      } else {
        at := MissesSince(d, init, id, count);
      }
      hide Listed, TrailingMisses;
      forall i | 0 <= i < count ensures at[i] < |history| && MissedAt(d, history, at[i], id) {
        if at[i] < n { assert init[at[i]] == history[at[i]]; }
      }
      forall k | at[0] <= k < |history| && history[k].Reconciled? ensures !Listed(d, history[k].listing, id) {
        if k < n { assert init[k] == history[k]; }
      }
    }
  }

  lemma ThriceMissed(d: Driver, history: seq<Round>, n: nat, id: string)
    requires n < |history| && TrailingMisses(d, history[..n + 1], id) >= 3 && MissedAt(d, history, n, id)
    ensures MissedThrice(d, history, n, id)
  {
    var upTo := history[..n + 1];
    var at := MissesSince(d, upTo, id, 3);
    hide Listed, TrailingMisses;
    assert forall k :: 0 <= k <= n ==> upTo[k] == history[k];
    assert at[0] < at[1] < at[2] <= n;
    assert MissedAt(d, upTo, at[0], id) && MissedAt(d, upTo, at[1], id);
    assert MissedAt(d, history, at[0], id) && MissedAt(d, history, at[1], id);
    forall k | at[0] <= k <= n && history[k].Reconciled? ensures !Listed(d, history[k].listing, id) {
      assert upTo[k] == history[k];
    }
  }

  // A poll forgets a sandbox it was not shown down only after three complete
  // listings in a row without it, the last of them its own, and under KubeVirt
  // only with a confirmed cleanup.
  lemma RemovalNeedsThreeMisses(
    d: Driver, r: seq<map<string, Record>>, history: seq<Round>, maxAge: int, n: nat, id: string)
    requires History(d, r, history, maxAge) && n < |history|
    requires id in r[n] && id !in r[n + 1] && !history[n].Calls? && !ShownDown(d, history[n], id)
    ensures history[n].Reconciled? && r[n][id].Bound()
    ensures MissedThrice(d, history, n, id)
    ensures history[n].cs[id].cleanupOk
  {
    hide RoundRel, Listed, ShownDown, MissedThrice;
    MissesAreBounded(d, r, history, maxAge, n, id);
    assert history[..n + 1][..n] == history[..n];
    RoundCounts(d, r[n], r[n + 1], history[n], maxAge, id);
    ThriceMissed(d, history, n, id);
  }
}
