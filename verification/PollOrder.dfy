// The order of a listing and of the visits to its sandboxes does not matter,
// although each order reads the clock and calls the provider at other times.
module PollOrder {
  import opened Records
  import opened Store
  import opened Fleet
  import opened Transitions
  import opened Reconcile
  import opened Replay
  import opened Polling
  import opened Phases
  import opened PollGuarantees

  predicate PastAge(createdAt: Time, now: Time, maxAge: int) {
    Elapsed(now, createdAt) > EffectiveMaxAge(maxAge)
  }

  // A creation time means the same at both ends of a poll.
  predicate Settled(createdAt: Time, from: Time, to: Time, maxAge: int) {
    Untrusted(createdAt, from) == Untrusted(createdAt, to) && PastAge(createdAt, from, maxAge) == PastAge(createdAt, to, maxAge)
  }

  // While the poll runs, no instance and no record comes of age, and no
  // creation time in the future comes within the skew allowed.
  ghost predicate NothingAges(listing: seq<Instance>, records: map<string, Record>, from: Time, to: Time, maxAge: int) {
    && (forall x :: x in listing ==> Settled(x.createdAt, from, to, maxAge))
    && (forall id :: id in records ==> Settled(records[id].createdAt, from, to, maxAge))
  }

  lemma SettledBetween(createdAt: Time, from: Time, to: Time, now: Time, maxAge: int)
    requires Settled(createdAt, from, to, maxAge) && from <= now <= to
    ensures Untrusted(createdAt, now) == Untrusted(createdAt, from) && PastAge(createdAt, now, maxAge) == PastAge(createdAt, from, maxAge)
  {
  }

  // A record without its lease and its status time, and, unless it is dated,
  // without its creation time.
  function Outline(r: Option<Record>, dated: bool): Option<Record> {
    match Leaseless(Timeless(r))
    case None => None
    case Some(rec) => Some(if dated then rec else rec.(createdAt := 0))
  }

  // The poll recovers this sandbox and gives it a creation time of its own.
  predicate Clamped(d: Driver, pre: Option<Record>, c: Choice, at: Time) {
    pre.None? && Seen(d, c) && Untrusted(Kept(d, c).createdAt, at)
  }

  // ---- One sandbox ------------------------------------------------------------------

  lemma ListedAlike(d: Driver, pre: Option<Record>, c: Choice, e: Choice, maxAge: int)
    requires c.sorted == e.sorted && Clamped(d, pre, c, c.comparedAt) == Clamped(d, pre, e, e.comparedAt)
    ensures
      var dated := !Clamped(d, pre, c, c.comparedAt);
      Outline(ListStep(d, pre, c, maxAge), dated) == Outline(ListStep(d, pre, e, maxAge), dated)
  {
    hide KeeperIndex;
  }

  lemma CountedAlike(a: Option<Record>, b: Option<Record>, seen: bool, ok: bool, dated: bool)
    requires Outline(a, dated) == Outline(b, dated)
    ensures Outline(CountStep(a, seen, ok), dated) == Outline(CountStep(b, seen, ok), dated)
  {
  }

  lemma ExpiredAlike(
    a: Option<Record>, b: Option<Record>, goal: string, now1: Time, now2: Time, maxAge: int, ok: bool, at1: Time, at2: Time, dated: bool)
    requires Outline(a, dated) == Outline(b, dated)
    requires a.Some? && b.Some? ==> IsExpired(a.value, now1, maxAge) == IsExpired(b.value, now2, maxAge)
    ensures Outline(ExpireStep(a, goal, now1, maxAge, ok, at1), dated) == Outline(ExpireStep(b, goal, now2, maxAge, ok, at2), dated)
  {
    hide IsExpired;
  }

  // When the expiry loop comes to it, a sandbox is due in both polls or in
  // neither.
  lemma DueAlike(d: Driver, pre: Option<Record>, c: Choice, from: Time, now: Time, to: Time, maxAge: int)
    requires ReadWithin(c, from, now) && now <= to
    requires 0 < maxAge <= MAX_DURATION - SECOND && maxAge + SECOND < from
    requires pre.Some? ==> Settled(pre.value.createdAt, from, to, maxAge)
    requires Seen(d, c) ==> Settled(Kept(d, c).createdAt, from, to, maxAge)
    requires Counted(d, pre, c, maxAge).Some?
    ensures
      var rec := Counted(d, pre, c, maxAge).value;
      IsExpired(rec, now, maxAge) <==>
        rec.state != "terminated" && (Clamped(d, pre, c, from) || (rec.createdAt != ZERO_TIME && PastAge(rec.createdAt, from, maxAge)))
  {
  }

  lemma CleanupAlike(
    d: Driver, x: Option<Record>, y: Option<Record>, seen: bool, ok: bool, ok': bool, dated: bool,
    calls1: seq<(string, bool)>, calls2: seq<(string, bool)>, from: nat, outcome: string -> bool)
    requires Outline(x, dated) == Outline(y, dated)
    requires CleanupAnswered(d, x, seen, ok, calls1, from) && CleanupAnswered(d, y, seen, ok', calls2, from)
    requires Decided(calls1, from, outcome) && Decided(calls2, from, outcome)
    ensures ok == ok'
  {
    hide Decided, Answered;
    if OwesCleanup(d, x, seen) {
      DecidedAnswer(calls1, from, outcome, x.value.instanceId, ok);
      DecidedAnswer(calls2, from, outcome, y.value.instanceId, ok');
    }
  }

  lemma ExpiryAlike(
    d: Driver, x: Option<Record>, y: Option<Record>, now1: Time, now2: Time, maxAge: int, ok: bool, ok': bool, dated: bool,
    calls1: seq<(string, bool)>, calls2: seq<(string, bool)>, from: nat, outcome: string -> bool)
    requires Outline(x, dated) == Outline(y, dated)
    requires x.Some? && y.Some? ==> IsExpired(x.value, now1, maxAge) == IsExpired(y.value, now2, maxAge)
    requires ExpiryAnswered(d, x, now1, maxAge, ok, calls1, from) && ExpiryAnswered(d, y, now2, maxAge, ok', calls2, from)
    requires Decided(calls1, from, outcome) && Decided(calls2, from, outcome)
    ensures ok == ok'
  {
    hide Decided, Answered, IsExpired;
    if OwesExpiry(d, x, now1, maxAge) {
      DecidedAnswer(calls1, from, outcome, x.value.instanceId, ok);
      DecidedAnswer(calls2, from, outcome, y.value.instanceId, ok');
    }
  }

  // One poll of a sandbox, as far as its own outcome goes.
  ghost predicate PolledOnce(
    d: Driver, pre: Option<Record>, c: Choice, from: Time, now: Time, to: Time, maxAge: int, calls: seq<(string, bool)>, start: nat,
    outcome: string -> bool)
  {
    && ReadWithin(c, from, now) && now <= to
    && CleanupAnswered(d, ListStep(d, pre, c, maxAge), Seen(d, c), c.cleanupOk, calls, start)
    && ExpiryAnswered(d, Counted(d, pre, c, maxAge), now, maxAge, c.expireOk, calls, start)
    && Decided(calls, start, outcome)
    && (pre.Some? ==> Settled(pre.value.createdAt, from, to, maxAge))
    && (Seen(d, c) ==> Settled(Kept(d, c).createdAt, from, to, maxAge))
  }

  lemma PolledAlike(
    d: Driver, pre: Option<Record>, c: Choice, e: Choice, from: Time, now1: Time, to1: Time, now2: Time, to2: Time, maxAge: int,
    calls1: seq<(string, bool)>, calls2: seq<(string, bool)>, start: nat, outcome: string -> bool)
    requires c.sorted == e.sorted && 0 < maxAge <= MAX_DURATION - SECOND && maxAge + SECOND < from
    requires PolledOnce(d, pre, c, from, now1, to1, maxAge, calls1, start, outcome)
    requires PolledOnce(d, pre, e, from, now2, to2, maxAge, calls2, start, outcome)
    ensures
      var dated := !Clamped(d, pre, c, from);
      Outline(Polled(d, pre, c, now1, maxAge), dated) == Outline(Polled(d, pre, e, now2, maxAge), dated)
  {
    hide Settled, Untrusted, ListStep, CountStep, ExpireStep, IsExpired, Outline, PastAge, CleanupAnswered, ExpiryAnswered, Decided;
    var seen, dated := Seen(d, c), !Clamped(d, pre, c, from);
    assert Seen(d, e) == seen && (seen ==> Kept(d, c) == Kept(d, e));
    if seen {
      SettledBetween(Kept(d, c).createdAt, from, to1, c.comparedAt, maxAge);
      SettledBetween(Kept(d, c).createdAt, from, to2, e.comparedAt, maxAge);
    }
    hide Seen, Kept;
    ListedAlike(d, pre, c, e, maxAge);
    var x, y := ListStep(d, pre, c, maxAge), ListStep(d, pre, e, maxAge);
    CleanupAlike(d, x, y, seen, c.cleanupOk, e.cleanupOk, dated, calls1, calls2, start, outcome);
    CountedAlike(x, y, seen, c.cleanupOk, dated);
    var u, v := Counted(d, pre, c, maxAge), Counted(d, pre, e, maxAge);
    if u.Some? && v.Some? {
      DueAlike(d, pre, c, from, now1, to1, maxAge);
      DueAlike(d, pre, e, from, now2, to2, maxAge);
      SameShape(u, v, dated);
    }
    ExpiryAlike(d, u, v, now1, now2, maxAge, c.expireOk, e.expireOk, dated, calls1, calls2, start, outcome);
    ExpiredAlike(u, v, Goal(d), now1, now2, maxAge, c.expireOk, c.expiredAt, e.expiredAt, dated);
  }

  lemma SameShape(u: Option<Record>, v: Option<Record>, dated: bool)
    requires Outline(u, dated) == Outline(v, dated) && u.Some? && v.Some?
    ensures u.value.state == v.value.state && (dated ==> u.value.createdAt == v.value.createdAt)
  {
  }

  // ---- Whole polls ---------------------------------------------------------------------

  // The sandbox is unknown, and so is the age of the instance kept for it.
  ghost predicate AgeUnknown(d: Driver, a: Moment, listing: seq<Instance>, id: string) {
    id !in a.records && exists x :: IsKept(d, x, Matches(listing, id)) && Untrusted(x.createdAt, a.last)
  }

  lemma ClampedIfUnknown(d: Driver, a: Moment, listing: seq<Instance>, cs: map<string, Choice>, id: string)
    requires Covers(listing, cs) && id in cs && DistinctIds(listing)
    ensures Clamped(d, Lookup(a.records, id), cs[id], a.last) <==> AgeUnknown(d, a, listing, id)
  {
    hide Seen, Kept, IsKept, Listed, Untrusted;
    SeenIffListed(d, listing, cs, id);
    if Seen(d, cs[id]) {
      KeptListed(d, listing, cs, id);
      DistinctMatches(listing, id);
      forall x | IsKept(d, x, Matches(listing, id)) ensures x == Kept(d, cs[id]) {
        KeptUnique(d, x, Kept(d, cs[id]), Matches(listing, id));
      }
    } else {
      NothingKept(d, listing, id);
    }
  }

  lemma NothingKept(d: Driver, listing: seq<Instance>, id: string)
    requires !Listed(d, listing, id)
    ensures forall x :: !IsKept(d, x, Matches(listing, id))
  {
  }

  // A complete poll during which nothing ages and each instance name has its
  // answer.
  ghost predicate PolledQuietly(
    d: Driver, a: Moment, b: Moment, listing: seq<Instance>, cs: map<string, Choice>, now: Time, maxAge: int, outcome: string -> bool)
  {
    && PollRan(d, a, b, listing, cs, now, maxAge)
    && NothingAges(listing, a.records, a.last, b.last, maxAge)
    && Decided(b.calls, |a.calls|, outcome)
  }

  lemma QuietlyOnce(
    d: Driver, a: Moment, b: Moment, listing: seq<Instance>, cs: map<string, Choice>, now: Time, maxAge: int,
    outcome: string -> bool, id: string)
    requires PolledQuietly(d, a, b, listing, cs, now, maxAge, outcome)
    ensures Covers(listing, cs) && (id !in cs ==> Lookup(b.records, id).None? && Lookup(a.records, id).None?)
    ensures id in cs ==>
              && Lookup(b.records, id) == Polled(d, Lookup(a.records, id), cs[id], now, maxAge)
              && PolledOnce(d, Lookup(a.records, id), cs[id], a.last, now, b.last, maxAge, b.calls, |a.calls|, outcome)
  {
    PolledAt(d, a, b, listing, cs, now, maxAge, id);
    hide Follows, Polled, Partitioned, CleanupAnswered, ExpiryAnswered, Settled, Decided, SortedFrom;
    if id in cs && Seen(d, cs[id]) { KeptListed(d, listing, cs, id); }
    hide Seen, Kept;
  }

  // Two complete polls from the same start that see the same instances in any
  // order leave the same records up to fresh leases, status times and the
  // creation times given to sandboxes of unknown age: provided that each
  // instance name has one answer and nothing ages while they run.
  lemma OrderIndependent(
    d: Driver, a: Moment, b1: Moment, b2: Moment, listing1: seq<Instance>, listing2: seq<Instance>,
    cs1: map<string, Choice>, cs2: map<string, Choice>, now1: Time, now2: Time, maxAge: int, outcome: string -> bool)
    requires PolledQuietly(d, a, b1, listing1, cs1, now1, maxAge, outcome)
    requires PolledQuietly(d, a, b2, listing2, cs2, now2, maxAge, outcome)
    requires multiset(listing1) == multiset(listing2) && DistinctIds(listing1)
    requires 0 < maxAge <= MAX_DURATION - SECOND && maxAge + SECOND < a.last
    ensures forall id ::
              var dated := !AgeUnknown(d, a, listing1, id);
              Outline(Lookup(b1.records, id), dated) == Outline(Lookup(b2.records, id), dated)
  {
    forall id
      ensures
        var dated := !AgeUnknown(d, a, listing1, id);
        Outline(Lookup(b1.records, id), dated) == Outline(Lookup(b2.records, id), dated)
    {
      hide PolledQuietly, PolledOnce, Polled, Outline, Seen, Listed, AgeUnknown, Clamped, Covers;
      QuietlyOnce(d, a, b1, listing1, cs1, now1, maxAge, outcome, id);
      QuietlyOnce(d, a, b2, listing2, cs2, now2, maxAge, outcome, id);
      SeenIffListed(d, listing1, cs1, id);
      SeenIffListed(d, listing2, cs2, id);
      SameListed(d, listing1, listing2, id);
      if id in cs1 && id in cs2 {
        SameSort(listing1, listing2, cs1, cs2, id);
        ClampedIfUnknown(d, a, listing1, cs1, id);
        PolledAlike(d, Lookup(a.records, id), cs1[id], cs2[id], a.last, now1, b1.last, now2, b2.last, maxAge,
                    b1.calls, b2.calls, |a.calls|, outcome);
      } else if id in cs1 {
        NothingSeen(d, cs1[id], now1, maxAge);
      } else if id in cs2 {
        NothingSeen(d, cs2[id], now2, maxAge);
      }
    }
  }
}
