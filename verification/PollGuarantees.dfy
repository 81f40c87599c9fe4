// What the polls of both drivers guarantee, in terms of what their contracts
// show: the registry, the provider's log and the clock before and after.
module PollGuarantees {
  import opened Records
  import opened Store
  import opened Fleet
  import opened Transitions
  import opened Reconcile
  import opened Replay
  import opened Polling
  import opened Phases

  lemma PolledAt(
    d: Driver, a: Moment, b: Moment, listing: seq<Instance>, cs: map<string, Choice>, now: Time, maxAge: int, id: string)
    requires PollRan(d, a, b, listing, cs, now, maxAge)
    ensures id in a.records || id in b.records ==> id in cs
    ensures id in cs ==>
              && Lookup(b.records, id) == Polled(d, Lookup(a.records, id), cs[id], now, maxAge)
              && Accounted(d, Lookup(a.records, id), Matches(listing, id), cs[id], now, maxAge, b.calls, |a.calls|)
              && ReadWithin(cs[id], a.last, now) && a.last <= cs[id].expiredAt <= b.last
  {
    hide Follows, Accounted, Polled;
  }

  // ---- The listing is partitioned --------------------------------------------------

  // Every listed instance that is not down is bound in the registry when the
  // poll ends, or was passed to a Terminate that returned nil.
  lemma ListedAreAccountedFor(
    d: Driver, a: Moment, b: Moment, listing: seq<Instance>, cs: map<string, Choice>, now: Time, maxAge: int, x: Instance)
    requires PollRan(d, a, b, listing, cs, now, maxAge)
    requires x in listing && x.sandboxId != "" && !Down(d, x.state)
    ensures || (x.sandboxId in b.records && b.records[x.sandboxId].instanceId == x.id)
            || Terminated(b.calls, |a.calls|, x.id)
  {
    var id := x.sandboxId;
    PolledAt(d, a, b, listing, cs, now, maxAge, id);
    MatchesMembers(listing, id);
    hide Follows, Answered, Kept, Polled, CleanupAnswered, ExpiryAnswered;
    if Seen(d, cs[id]) { SeenIsTracked(d, Lookup(a.records, id), cs[id], now, maxAge); }
  }

  // ---- Releases ----------------------------------------------------------------------

  // KubeVirt forgets a sandbox only after a Terminate of its own instance
  // returned nil in this poll, at the third miss or later.
  lemma ReleasedAfterCleanup(
    a: Moment, b: Moment, listing: seq<Instance>, cs: map<string, Choice>, now: Time, maxAge: int, id: string)
    requires PollRan(KubeVirt, a, b, listing, cs, now, maxAge)
    requires id in a.records && id !in b.records
    ensures a.records[id].Bound() && a.records[id].missingPolls + 1 >= MISSING_POLL_THRESHOLD
    ensures !ListedLive(listing, id) && Terminated(b.calls, |a.calls|, a.records[id].instanceId)
  {
    PolledAt(KubeVirt, a, b, listing, cs, now, maxAge, id);
    SeenIffListed(KubeVirt, listing, cs, id);
    hide Follows, Answered, Kept, Polled, ExpiryAnswered, PollRan, Partitioned, ListedLive;
    if Seen(KubeVirt, cs[id]) {
      KeptListed(KubeVirt, listing, cs, id);
      SeenIsTracked(KubeVirt, Lookup(a.records, id), cs[id], now, maxAge);
    } else {
      UnseenIsCounted(KubeVirt, Lookup(a.records, id), cs[id], now, maxAge);
    }
  }

  // ---- Fail-closed expiry --------------------------------------------------------------

  // After a complete poll, every bound record due for expiry has the driver's
  // final state, or a Terminate of its own instance failed in this poll and it
  // is still tracked and due.
  lemma ExpiredAreHandled(
    d: Driver, a: Moment, b: Moment, listing: seq<Instance>, cs: map<string, Choice>, now: Time, maxAge: int, id: string)
    requires PollRan(d, a, b, listing, cs, now, maxAge)
    requires id in b.records && b.records[id].Bound() && IsExpired(b.records[id], now, maxAge)
    ensures || b.records[id].state == Goal(d)
            || (Answered(b.calls, |a.calls|, b.records[id].instanceId, false) && Expires(b.records[id], Goal(d), now, maxAge))
  {
    PolledAt(d, a, b, listing, cs, now, maxAge, id);
    hide Follows, Answered, Counted, PollRan, Partitioned, IsExpired, CleanupAnswered;
  }

  // A sandbox first seen without a trustworthy age, or with one later than any
  // reading of this poll allows, has the driver's final state when the poll
  // ends, or the Terminate of its instance failed.
  lemma UnknownAgeIsReaped(
    d: Driver, a: Moment, b: Moment, listing: seq<Instance>, cs: map<string, Choice>, now: Time, maxAge: int, x: Instance)
    requires PollRan(d, a, b, listing, cs, now, maxAge) && DistinctIds(listing)
    requires x in listing && x.sandboxId != "" && IsKept(d, x, Matches(listing, x.sandboxId))
    requires x.id != "" && !Down(d, x.state) && x.state != "terminated" && x.sandboxId !in a.records
    requires x.createdAt == ZERO_TIME || x.createdAt > b.last + CLOCK_SKEW
    requires 0 < maxAge <= MAX_DURATION - SECOND && maxAge + SECOND < a.last
    ensures x.sandboxId in b.records && b.records[x.sandboxId].instanceId == x.id
    ensures b.records[x.sandboxId].state == Goal(d) || Answered(b.calls, |a.calls|, x.id, false)
  {
    var id := x.sandboxId;
    PolledAt(d, a, b, listing, cs, now, maxAge, id);
    KeptIs(d, listing, cs, id, x);
    var c := cs[id];
    SeenIsTracked(d, None, c, now, maxAge);
    UntrustedAgeExpires(x, c.statusAt, c.comparedAt, c.clampedAt, now, maxAge);
    RecoveredIsDue(d, c, x, now, maxAge);
    hide Follows, Answered, PollRan, Partitioned, IsExpired, CleanupAnswered, Recovered, Kept, Seen;
  }

  lemma KeptIs(d: Driver, listing: seq<Instance>, cs: map<string, Choice>, id: string, x: Instance)
    requires Covers(listing, cs) && DistinctIds(listing) && x in listing && x.sandboxId == id != ""
    requires IsKept(d, x, Matches(listing, id))
    ensures id in cs && Seen(d, cs[id]) && Kept(d, cs[id]) == x
  {
    SeenIffListed(d, listing, cs, id);
    KeptListed(d, listing, cs, id);
    DistinctMatches(listing, id);
    KeptUnique(d, x, Kept(d, cs[id]), Matches(listing, id));
  }

  lemma RecoveredIsDue(d: Driver, c: Choice, x: Instance, now: Time, maxAge: int)
    requires Seen(d, c) && Kept(d, c) == x && x.id != "" && !Down(d, x.state)
    requires IsExpired(Recovered(x, c.statusAt, c.comparedAt, c.clampedAt, maxAge), now, maxAge)
    ensures Counted(d, None, c, maxAge).Some? && Counted(d, None, c, maxAge).value.instanceId == x.id
    ensures Counted(d, None, c, maxAge).value.state == x.state
    ensures OwesExpiry(d, Counted(d, None, c, maxAge), now, maxAge) <==> x.state != Goal(d)
  {
    hide Kept, Seen;
  }

  // ---- Order independence ----------------------------------------------------------------

  // Terminate answered as a fixed outcome per instance name says.
  ghost predicate Decided(calls: seq<(string, bool)>, from: nat, outcome: string -> bool) {
    forall k :: from <= k < |calls| ==> calls[k].1 == outcome(calls[k].0)
  }

  lemma DecidedAnswer(calls: seq<(string, bool)>, from: nat, outcome: string -> bool, id: string, ok: bool)
    requires Decided(calls, from, outcome) && Answered(calls, from, id, ok)
    ensures ok == outcome(id)
  {
    var k :| 0 <= k < |calls[from..]| && calls[from..][k] == (id, ok);
    assert calls[from + k] == (id, ok);
  }

  // Two complete polls that start alike, see the same instances in any order,
  // get the same answers for the same names and run while the clock stands,
  // leave the same records up to fresh lease numbers.
  lemma OrderIndependentWhileStanding(
    d: Driver, a: Moment, b1: Moment, b2: Moment, listing1: seq<Instance>, listing2: seq<Instance>,
    cs1: map<string, Choice>, cs2: map<string, Choice>, now1: Time, now2: Time, maxAge: int, outcome: string -> bool)
    requires PollRan(d, a, b1, listing1, cs1, now1, maxAge) && PollRan(d, a, b2, listing2, cs2, now2, maxAge)
    requires multiset(listing1) == multiset(listing2) && DistinctIds(listing1)
    requires a.last == b1.last == b2.last
    requires Decided(b1.calls, |a.calls|, outcome) && Decided(b2.calls, |a.calls|, outcome)
    ensures forall id :: Leaseless(Lookup(b1.records, id)) == Leaseless(Lookup(b2.records, id))
  {
    hide PollRan, Follows, PollRel, SameOutcomes, Accounted, Decided, DistinctIds, Leaseless;
    PollStands(d, a, b1, listing1, cs1, now1, maxAge);
    PollStands(d, a, b2, listing2, cs2, now2, maxAge);
    forall id | id in cs1 && id in cs2 && cs1[id].sorted == cs2[id].sorted
      ensures SameOutcomes(d, Lookup(a.records, id), cs1[id], cs2[id], now1, maxAge)
    {
      OutcomesAgree(d, Lookup(a.records, id), cs1[id], cs2[id], now1, maxAge, b1.calls, b2.calls, |a.calls|, outcome,
                    Matches(listing1, id), Matches(listing2, id));
    }
    Reconcile.OrderIndependent(d, a.records, b1.records, b2.records, listing1, listing2, cs1, cs2, now1, maxAge);
  }

  // While the clock stands, all readings of a poll are one time.
  lemma PollStands(
    d: Driver, a: Moment, b: Moment, listing: seq<Instance>, cs: map<string, Choice>, now: Time, maxAge: int)
    requires PollRan(d, a, b, listing, cs, now, maxAge) && b.last == a.last
    ensures now == a.last && PollRel(d, a.records, b.records, listing, cs, now, maxAge)
    ensures forall id :: id in cs ==>
              && AllAt(cs[id], a.last)
              && Accounted(d, Lookup(a.records, id), Matches(listing, id), cs[id], now, maxAge, b.calls, |a.calls|)
  {
    hide Follows, PollRel, Accounted;
  }

  lemma OutcomesAgree(
    d: Driver, pre: Option<Record>, c: Choice, e: Choice, now: Time, maxAge: int,
    calls1: seq<(string, bool)>, calls2: seq<(string, bool)>, from: nat, outcome: string -> bool,
    group1: seq<Instance>, group2: seq<Instance>)
    requires Accounted(d, pre, group1, c, now, maxAge, calls1, from) && Accounted(d, pre, group2, e, now, maxAge, calls2, from)
    requires c.sorted == e.sorted && AllAt(c, now) && AllAt(e, now)
    requires Decided(calls1, from, outcome) && Decided(calls2, from, outcome)
    ensures SameOutcomes(d, pre, c, e, now, maxAge)
  {
    hide Partitioned, IsExpired, Decided, Answered, KeeperIndex, Recovered, Refresh, NeedsUpdate;
    SameListing(d, pre, c, e, maxAge);
    var x, y := ListStep(d, pre, c, maxAge), ListStep(d, pre, e, maxAge);
    var seen := Seen(d, c);
    assert Seen(d, e) == seen && Leaseless(x) == Leaseless(y);
    SameCleanup(d, x, y, seen, c.cleanupOk, e.cleanupOk, calls1, calls2, from, outcome);
    SameCounting(d, x, y, seen, c.cleanupOk, e.cleanupOk);
    var u, v := Counted(d, pre, c, maxAge), Counted(d, pre, e, maxAge);
    assert Leaseless(u) == Leaseless(v);
    SameExpiryAnswer(d, u, v, now, maxAge, c.expireOk, e.expireOk, calls1, calls2, from, outcome);
  }

  lemma SameCleanup(
    d: Driver, x: Option<Record>, y: Option<Record>, seen: bool, ok: bool, ok': bool,
    calls1: seq<(string, bool)>, calls2: seq<(string, bool)>, from: nat, outcome: string -> bool)
    requires Leaseless(x) == Leaseless(y)
    requires CleanupAnswered(d, x, seen, ok, calls1, from) && CleanupAnswered(d, y, seen, ok', calls2, from)
    requires Decided(calls1, from, outcome) && Decided(calls2, from, outcome)
    ensures ok == ok' && (d.EC2? ==> ok)
  {
    hide Decided, Answered;
    if OwesCleanup(d, x, seen) {
      DecidedAnswer(calls1, from, outcome, x.value.instanceId, ok);
      DecidedAnswer(calls2, from, outcome, y.value.instanceId, ok');
    }
  }

  lemma SameExpiryAnswer(
    d: Driver, x: Option<Record>, y: Option<Record>, now: Time, maxAge: int, ok: bool, ok': bool,
    calls1: seq<(string, bool)>, calls2: seq<(string, bool)>, from: nat, outcome: string -> bool)
    requires Leaseless(x) == Leaseless(y)
    requires ExpiryAnswered(d, x, now, maxAge, ok, calls1, from) && ExpiryAnswered(d, y, now, maxAge, ok', calls2, from)
    requires Decided(calls1, from, outcome) && Decided(calls2, from, outcome)
    ensures ok == ok'
  {
    if x.Some? { SameDue(x.value, y.value, now, maxAge); }
    hide Decided, Answered, IsExpired;
    if OwesExpiry(d, x, now, maxAge) {
      DecidedAnswer(calls1, from, outcome, x.value.instanceId, ok);
      DecidedAnswer(calls2, from, outcome, y.value.instanceId, ok');
    }
  }

  // ---- Runs of polls ------------------------------------------------------------------------

  // Complete polls of one listing, one after the other.
  ghost predicate PollRun(
    d: Driver, ms: seq<Moment>, listing: seq<Instance>, cs: seq<map<string, Choice>>, now: seq<Time>, maxAge: int)
  {
    && |ms| == |cs| + 1 == |now| + 1
    && (forall i :: 0 <= i < |cs| ==> PollRan(d, ms[i], ms[i + 1], listing, cs[i], now[i], maxAge))
  }

  lemma {:induction false} RunFollows(
    d: Driver, ms: seq<Moment>, listing: seq<Instance>, cs: seq<map<string, Choice>>, now: seq<Time>, maxAge: int, m: nat, n: nat)
    requires PollRun(d, ms, listing, cs, now, maxAge) && m <= n < |ms|
    ensures Follows(ms[m], ms[n])
    decreases n
  {
    hide Follows, PollRan;
    if m == n {
      FollowsSelf(ms[m]);
    } else {
      RunFollows(d, ms, listing, cs, now, maxAge, m, n - 1);
      PollFollows(d, ms[n - 1], ms[n], listing, cs[n - 1], now[n - 1], maxAge);
      FollowsTrans(ms[m], ms[n - 1], ms[n]);
    }
  }

  // While no Terminate fails, every choice of a run says so.
  lemma NothingFailed(
    d: Driver, ms: seq<Moment>, listing: seq<Instance>, cs: seq<map<string, Choice>>, now: seq<Time>, maxAge: int, i: nat, id: string)
    requires PollRun(d, ms, listing, cs, now, maxAge) && i < |cs| && id in cs[i]
    requires NoFailures(ms[|cs|].calls, |ms[0].calls|)
    ensures cs[i][id].cleanupOk && cs[i][id].expireOk
  {
    hide Follows, PollRan;
    RunFollows(d, ms, listing, cs, now, maxAge, 0, i);
    RunFollows(d, ms, listing, cs, now, maxAge, i + 1, |cs|);
    PolledAt(d, ms[i], ms[i + 1], listing, cs[i], now[i], maxAge, id);
    NoFailuresBetween(ms[0], ms[i], ms[i + 1], ms[|cs|]);
    AllConfirmed(d, Lookup(ms[i].records, id), Matches(listing, id), cs[i][id], now[i], maxAge, ms[i + 1].calls, |ms[i].calls|);
  }

  lemma NoFailuresBetween(a: Moment, b: Moment, c: Moment, e: Moment)
    requires Follows(a, b) && Follows(c, e) && NoFailures(e.calls, |a.calls|)
    ensures NoFailures(c.calls, |b.calls|)
  {
    hide Explains;
    forall k | |b.calls| <= k < |c.calls| ensures c.calls[k].1 { assert c.calls[k] == e.calls[k]; }
  }

  lemma AllConfirmed(
    d: Driver, pre: Option<Record>, group: seq<Instance>, c: Choice, now: Time, maxAge: int, calls: seq<(string, bool)>, from: nat)
    requires Accounted(d, pre, group, c, now, maxAge, calls, from) && NoFailures(calls, from)
    ensures c.cleanupOk && c.expireOk
  {
    hide Partitioned, Answered, NoFailures, ListStep, Counted, Expires, Seen;
    if OwesCleanup(d, ListStep(d, pre, c, maxAge), Seen(d, c)) {
      NoFailureAnswered(calls, from, ListStep(d, pre, c, maxAge).value.instanceId, c.cleanupOk);
    }
    if OwesExpiry(d, Counted(d, pre, c, maxAge), now, maxAge) {
      NoFailureAnswered(calls, from, Counted(d, pre, c, maxAge).value.instanceId, c.expireOk);
    }
  }

  lemma RunRecords(
    d: Driver, ms: seq<Moment>, listing: seq<Instance>, cs: seq<map<string, Choice>>, now: seq<Time>, maxAge: int, i: nat)
    requires PollRun(d, ms, listing, cs, now, maxAge) && i < |cs|
    ensures PollRel(d, ms[i].records, ms[i + 1].records, listing, cs[i], now[i], maxAge)
  {
    hide Follows, PollRel, Accounted;
    assert PollRan(d, ms[i], ms[i + 1], listing, cs[i], now[i], maxAge);
  }

  // From any registry, three polls of one listing during which no Terminate
  // fails leave exactly the target sandboxes bound, each to the instance its
  // driver keeps. A longer run stays there.
  lemma ConvergesInThreePolls(
    d: Driver, ms: seq<Moment>, listing: seq<Instance>, cs: seq<map<string, Choice>>, now: seq<Time>, maxAge: int, n: nat)
    requires PollRun(d, ms, listing, cs, now, maxAge) && 3 <= n < |ms|
    requires NamedInstances(listing) && (d.EC2? ==> DistinctIds(listing))
    requires NoFailures(ms[|cs|].calls, |ms[0].calls|)
    ensures forall id :: id in ms[n].records && ms[n].records[id].Bound() <==> Target(d, listing, id)
    ensures forall id :: Target(d, listing, id) ==>
              exists x :: IsKept(d, x, Matches(listing, id)) && ms[n].records[id].instanceId == x.id
  {
    hide PollRun, PollRel, Target, IsKept, NoFailures;
    LengthsOf(d, ms, listing, cs, now, maxAge);
    forall i | n - 3 <= i < n
      ensures PollRel(d, ms[i].records, ms[i + 1].records, listing, cs[i], now[i], maxAge) && CleanupsSucceed(cs[i])
    {
      RunRecords(d, ms, listing, cs, now, maxAge, i);
      forall id | id in cs[i] ensures cs[i][id].cleanupOk { NothingFailed(d, ms, listing, cs, now, maxAge, i, id); }
    }
    Reconcile.ConvergesInThreePolls(
      d, [ms[n - 3].records, ms[n - 2].records, ms[n - 1].records, ms[n].records], listing,
      [cs[n - 3], cs[n - 2], cs[n - 1]], [now[n - 3], now[n - 2], now[n - 1]], maxAge);
  }

  lemma LengthsOf(
    d: Driver, ms: seq<Moment>, listing: seq<Instance>, cs: seq<map<string, Choice>>, now: seq<Time>, maxAge: int)
    requires PollRun(d, ms, listing, cs, now, maxAge)
    ensures |ms| == |cs| + 1 == |now| + 1
  {
  }

  lemma {:induction false} RunRedacted(
    d: Driver, ms: seq<Moment>, listing: seq<Instance>, cs: seq<map<string, Choice>>, now: seq<Time>, maxAge: int, n: nat)
    requires PollRun(d, ms, listing, cs, now, maxAge) && n < |ms|
    requires forall id :: id in ms[0].records ==> Redacted(ms[0].records[id])
    ensures forall id :: id in ms[n].records ==> Redacted(ms[n].records[id])
  {
    if n > 0 {
      RunRedacted(d, ms, listing, cs, now, maxAge, n - 1);
      RunRecords(d, ms, listing, cs, now, maxAge, n - 1);
      hide Polled, PollRun;
      forall id | id in ms[n].records ensures Redacted(ms[n].records[id]) {
        PolledRedacted(d, Lookup(ms[n - 1].records, id), cs[n - 1][id], now[n - 1], maxAge);
      }
    }
  }

  lemma RunStands(
    d: Driver, ms: seq<Moment>, listing: seq<Instance>, cs: seq<map<string, Choice>>, now: seq<Time>, maxAge: int, i: nat)
    requires PollRun(d, ms, listing, cs, now, maxAge) && i < |cs| && ms[|cs|].last == ms[0].last
    requires NoFailures(ms[|cs|].calls, |ms[0].calls|)
    ensures now[i] == ms[0].last && Steady(cs[i], ms[0].last)
  {
    RunFollows(d, ms, listing, cs, now, maxAge, 0, i);
    RunFollows(d, ms, listing, cs, now, maxAge, i, i + 1);
    RunFollows(d, ms, listing, cs, now, maxAge, i + 1, |cs|);
    assert ms[0].last == ms[i].last == ms[i + 1].last by { hide PollRun, Explains; }
    hide Follows, PollRan, NoFailures;
    PollStands(d, ms[i], ms[i + 1], listing, cs[i], now[i], maxAge);
    forall id | id in cs[i] ensures cs[i][id].cleanupOk && cs[i][id].expireOk {
      NothingFailed(d, ms, listing, cs, now, maxAge, i, id);
    }
  }

  // A run during which the clock stands and no Terminate fails.
  ghost predicate StandingRun(
    d: Driver, ms: seq<Moment>, listing: seq<Instance>, cs: seq<map<string, Choice>>, now: seq<Time>, maxAge: int)
  {
    && PollRun(d, ms, listing, cs, now, maxAge)
    && ms[|cs|].last == ms[0].last && NoFailures(ms[|cs|].calls, |ms[0].calls|)
    && (forall id :: id in ms[0].records ==> Redacted(ms[0].records[id]))
  }

  lemma StandingPoll(
    d: Driver, ms: seq<Moment>, listing: seq<Instance>, cs: seq<map<string, Choice>>, now: seq<Time>, maxAge: int, i: nat)
    requires StandingRun(d, ms, listing, cs, now, maxAge) && i < |cs|
    ensures |ms| == |cs| + 1 && PollRel(d, ms[i].records, ms[i + 1].records, listing, cs[i], ms[0].last, maxAge)
    ensures Steady(cs[i], ms[0].last) && forall id :: id in ms[i].records ==> Redacted(ms[i].records[id])
  {
    hide PollRel, Steady, NoFailures, PollRan;
    RunRedacted(d, ms, listing, cs, now, maxAge, i);
    RunRecords(d, ms, listing, cs, now, maxAge, i);
    RunStands(d, ms, listing, cs, now, maxAge, i);
  }

  lemma StandingTarget(
    d: Driver, ms: seq<Moment>, listing: seq<Instance>, cs: seq<map<string, Choice>>, now: seq<Time>, maxAge: int, n: nat)
    requires StandingRun(d, ms, listing, cs, now, maxAge) && 3 <= n < |ms|
    requires NamedInstances(listing) && DistinctIds(listing)
    ensures forall id :: id in ms[n].records && ms[n].records[id].Bound() ==> Target(d, listing, id)
  {
    hide PollRun, NoFailures, Target, NamedInstances, DistinctIds;
    ConvergesInThreePolls(d, ms, listing, cs, now, maxAge, n);
  }

  // From the third poll on, while the clock stands and no Terminate fails, a
  // poll changes nothing but status times.
  lemma StaysConverged(
    d: Driver, ms: seq<Moment>, listing: seq<Instance>, cs: seq<map<string, Choice>>, now: seq<Time>, maxAge: int, n: nat)
    requires StandingRun(d, ms, listing, cs, now, maxAge) && 3 <= n < |cs| && |ms| == |cs| + 1
    requires NamedInstances(listing) && DistinctIds(listing)
    ensures forall id :: Timeless(Lookup(ms[n + 1].records, id)) == Timeless(Lookup(ms[n].records, id))
  {
    hide *;
    StandingTarget(d, ms, listing, cs, now, maxAge, n);
    StandingPoll(d, ms, listing, cs, now, maxAge, n - 1);
    StandingPoll(d, ms, listing, cs, now, maxAge, n);
    Reconcile.StaysConverged(
      d, ms[n - 1].records, ms[n].records, ms[n + 1].records, listing, cs[n - 1], cs[n], ms[0].last, maxAge);
  }
}
