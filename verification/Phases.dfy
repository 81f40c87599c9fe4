// How the three loops of a poll add up: the listing loop, the absence loop and
// the expiry loop, at every sandbox, are one poll of it.
module Phases {
  import opened Records
  import opened Store
  import opened Fleet
  import opened Transitions
  import opened Reconcile
  import opened Registry
  import opened Replay
  import opened Polling

  // Every instance of the group that is not down is the one kept or was passed
  // to a Terminate that returned nil.
  ghost predicate Partitioned(d: Driver, group: seq<Instance>, c: Choice, calls: seq<(string, bool)>, from: nat) {
    forall x :: x in group && !Down(d, x.state) ==> (Seen(d, c) && x == Kept(d, c)) || Terminated(calls, from, x.id)
  }

  predicate ReadWithin(c: Choice, from: Time, to: Time) {
    from <= c.statusAt <= to && from <= c.comparedAt <= to && from <= c.clampedAt <= to
  }

  // One turn of the listing loop on a sandbox: done, or given up unchanged.
  ghost predicate GroupDone(d: Driver, a: Moment, b: Moment, id: string, group: seq<Instance>, c: Choice, ok: bool, maxAge: int) {
    && Follows(a, b)
    && SortedFrom(c.sorted, group) && ReadWithin(c, a.last, b.last)
    && (ok ==> Lookup(b.records, id) == ListStep(d, Lookup(a.records, id), c, maxAge))
    && (ok ==> Partitioned(d, group, c, b.calls, |a.calls|))
    && (forall k :: k != id || !ok ==> Lookup(b.records, k) == Lookup(a.records, k))
  }

  // A known or unknown sandbox was brought to its kept instance.
  ghost predicate Tracked(d: Driver, a: Moment, b: Moment, id: string, c: Choice, maxAge: int) {
    && Follows(a, b) && ReadWithin(c, a.last, b.last)
    && Lookup(b.records, id) == ListStep(d, Lookup(a.records, id), c, maxAge)
    && (forall k :: k != id ==> Lookup(b.records, k) == Lookup(a.records, k))
  }

  lemma GroupTracked(
    d: Driver, a: Moment, resolved: Moment, b: Moment, id: string, group: seq<Instance>, c: Choice, maxAge: int)
    requires resolved == a.(calls := resolved.calls) && a.calls <= resolved.calls
    requires SortedFrom(c.sorted, group) && Partitioned(d, group, c, resolved.calls, |a.calls|)
    requires Tracked(d, resolved, b, id, c, maxAge)
    ensures GroupDone(d, a, b, id, group, c, true, maxAge)
  {
    hide SortedFrom, ListStep, Seen, Kept, Explains, Answered;
    TellsNothing(a, resolved);
    FollowsTrans(a, resolved, b);
    forall x | x in group && Terminated(resolved.calls, |a.calls|, x.id) ensures Terminated(b.calls, |a.calls|, x.id) {
      AnswerStays(resolved.calls, b.calls, |a.calls|, |a.calls|, x.id, true);
    }
  }

  lemma GroupSkipped(
    d: Driver, a: Moment, b: Moment, id: string, group: seq<Instance>, c: Choice, ok: bool, maxAge: int)
    requires b == a.(calls := b.calls) && a.calls <= b.calls
    requires SortedFrom(c.sorted, group) && ReadWithin(c, a.last, a.last)
    requires ok ==> !Seen(d, c) && Partitioned(d, group, c, b.calls, |a.calls|)
    ensures GroupDone(d, a, b, id, group, c, ok, maxAge)
  {
    hide SortedFrom, Explains, Answered, Partitioned;
    TellsNothing(a, b);
  }

  ghost predicate SandboxDone(d: Driver, a: Moment, b: Moment, id: string, listing: seq<Instance>, c: Choice, maxAge: int) {
    && a.calls <= b.calls
    && SortedFrom(c.sorted, Matches(listing, id)) && ReadWithin(c, a.last, b.last)
    && Lookup(b.records, id) == ListStep(d, Lookup(a.records, id), c, maxAge)
    && Partitioned(d, Matches(listing, id), c, b.calls, |a.calls|)
  }

  // The listing loop has dealt with the sandboxes in `cs` and no others.
  ghost predicate ListedSoFar(
    d: Driver, a: Moment, b: Moment, listing: seq<Instance>, cs: map<string, Choice>, seen: set<string>, maxAge: int)
  {
    && Follows(a, b)
    && (forall id :: id in cs ==> SandboxDone(d, a, b, id, listing, cs[id], maxAge) && (id in seen <==> Seen(d, cs[id])))
    && (forall id :: id !in cs ==> Lookup(b.records, id) == Lookup(a.records, id) && id !in seen)
  }

  lemma DoneStays(d: Driver, a: Moment, b: Moment, b': Moment, id: string, listing: seq<Instance>, c: Choice, maxAge: int)
    requires SandboxDone(d, a, b, id, listing, c, maxAge) && Follows(b, b') && Lookup(b'.records, id) == Lookup(b.records, id)
    ensures SandboxDone(d, a, b', id, listing, c, maxAge)
  {
    hide SortedFrom, ListStep, Seen, Kept, Explains, Answered, Matches;
    forall x | x in Matches(listing, id) && !Down(d, x.state)
      ensures (Seen(d, c) && x == Kept(d, c)) || Terminated(b'.calls, |a.calls|, x.id)
    {
      if Terminated(b.calls, |a.calls|, x.id) { AnswerStays(b.calls, b'.calls, |a.calls|, |a.calls|, x.id, true); }
    }
  }

  lemma DoneNow(d: Driver, a: Moment, b: Moment, b': Moment, id: string, listing: seq<Instance>, c: Choice, maxAge: int)
    requires Follows(a, b) && GroupDone(d, b, b', id, Matches(listing, id), c, true, maxAge)
    requires Lookup(b.records, id) == Lookup(a.records, id)
    ensures SandboxDone(d, a, b', id, listing, c, maxAge)
  {
    hide SortedFrom, ListStep, Seen, Kept, Explains, Answered, Matches;
    forall x | x in Matches(listing, id) && !Down(d, x.state)
      ensures (Seen(d, c) && x == Kept(d, c)) || Terminated(b'.calls, |a.calls|, x.id)
    {
      if Terminated(b'.calls, |b.calls|, x.id) { AnswerStays(b'.calls, b'.calls, |a.calls|, |b.calls|, x.id, true); }
    }
  }

  lemma ListedNext(
    d: Driver, a: Moment, b: Moment, b': Moment, listing: seq<Instance>, cs: map<string, Choice>, seen: set<string>,
    id: string, c: Choice, ok: bool, maxAge: int)
    requires ListedSoFar(d, a, b, listing, cs, seen, maxAge) && id !in cs
    requires GroupDone(d, b, b', id, Matches(listing, id), c, ok, maxAge)
    ensures ok ==> ListedSoFar(d, a, b', listing, cs[id := c], if Seen(d, c) then seen + {id} else seen, maxAge)
    ensures !ok ==> ListedSoFar(d, a, b', listing, cs, seen, maxAge)
  {
    hide SandboxDone, Partitioned, Explains, ListStep, SortedFrom, Seen, Follows;
    FollowsTrans(a, b, b');
    forall k | k in cs ensures SandboxDone(d, a, b', k, listing, cs[k], maxAge) {
      DoneStays(d, a, b, b', k, listing, cs[k], maxAge);
    }
    if ok { DoneNow(d, a, b, b', id, listing, c, maxAge); }
  }

  lemma ListedNothing(d: Driver, a: Moment, listing: seq<Instance>, maxAge: int)
    ensures ListedSoFar(d, a, a, listing, map[], {}, maxAge)
  {
    FollowsSelf(a);
  }

  lemma AbortedAt(
    d: Driver, a: Moment, b: Moment, listing: seq<Instance>, cs: map<string, Choice>, seen: set<string>, maxAge: int)
    requires ListedSoFar(d, a, b, listing, cs, seen, maxAge)
    ensures Follows(a, b) && AbortRel(d, a.records, b.records, listing, cs, maxAge)
  {
    hide ListStep, Partitioned, Follows, SortedFrom;
  }

  lemma KeptIsListed(d: Driver, c: Choice, group: seq<Instance>)
    requires SortedFrom(c.sorted, group) && Seen(d, c)
    ensures Kept(d, c) in group && (d.KubeVirt? ==> !Down(d, Kept(d, c).state))
  {
    SameMembers(c.sorted, group);
    if d.KubeVirt? {
      LiveMembers(c.sorted);
      assert Kept(d, c) in Live(c.sorted);
    } else {
      assert Kept(d, c) in c.sorted;
    }
  }

  // ---- A complete poll -------------------------------------------------------------

  // What a complete poll owes at one sandbox besides its record: every instance
  // listed and not down is the one kept or was terminated, and each Terminate
  // owed for a cleanup or an expiry was asked for the sandbox's own instance,
  // the choice holding the answer.
  ghost predicate Accounted(
    d: Driver, pre: Option<Record>, group: seq<Instance>, c: Choice, now: Time, maxAge: int,
    calls: seq<(string, bool)>, from: nat)
  {
    && Partitioned(d, group, c, calls, from)
    && CleanupAnswered(d, ListStep(d, pre, c, maxAge), Seen(d, c), c.cleanupOk, calls, from)
    && ExpiryAnswered(d, Counted(d, pre, c, maxAge), now, maxAge, c.expireOk, calls, from)
  }

  // A poll that returned nil ran between two moments: it told all it did, it
  // is the poll relation, it accounts for every sandbox, and it read the clock
  // in order.
  ghost predicate PollRan(
    d: Driver, a: Moment, b: Moment, listing: seq<Instance>, cs: map<string, Choice>, now: Time, maxAge: int)
  {
    && Follows(a, b)
    && PollRel(d, a.records, b.records, listing, cs, now, maxAge)
    && a.last <= now <= b.last
    && (forall id :: id in cs ==>
          && Accounted(d, Lookup(a.records, id), Matches(listing, id), cs[id], now, maxAge, b.calls, |a.calls|)
          && ReadWithin(cs[id], a.last, now) && a.last <= cs[id].expiredAt <= b.last)
  }

  lemma PollFollows(
    d: Driver, a: Moment, b: Moment, listing: seq<Instance>, cs: map<string, Choice>, now: Time, maxAge: int)
    requires PollRan(d, a, b, listing, cs, now, maxAge)
    ensures Follows(a, b)
  {
    hide Follows, PollRel, Accounted;
  }

  // The choices of the three loops about one sandbox, put together.
  function CombinedChoice(id: string, cs: map<string, Choice>, oks: map<string, bool>, es: map<string, Expiry>, at: Time): Choice {
    (if id in cs then cs[id] else Choice([], at, at, at, 0, true, true, at)).(
      cleanupOk := id in oks ==> oks[id],
      expireOk := id in es ==> es[id].ok,
      expiredAt := if id in es then es[id].at else at)
  }

  ghost predicate ThreePhases(
    d: Driver, a: Moment, b: Moment, c: Moment, e: Moment, listing: seq<Instance>, cs: map<string, Choice>, seen: set<string>,
    oks: map<string, bool>, es: map<string, Expiry>, now: Time, maxAge: int)
  {
    && ListedSoFar(d, a, b, listing, cs, seen, maxAge)
    && (forall x :: x in listing && x.sandboxId != "" ==> x.sandboxId in cs)
    && CountedSoFar(d, b, c, seen, oks) && b.records.Keys <= oks.Keys
    && ExpiredSoFar(d, c, e, now, es, maxAge) && c.last <= now <= e.last
    && (forall id :: id in c.records && Expires(c.records[id], Goal(d), now, maxAge) ==> id in es)
  }

  lemma PollDone(
    d: Driver, a: Moment, b: Moment, c: Moment, e: Moment, listing: seq<Instance>, cs: map<string, Choice>, seen: set<string>,
    oks: map<string, bool>, es: map<string, Expiry>, now: Time, maxAge: int) returns (all: map<string, Choice>)
    requires ThreePhases(d, a, b, c, e, listing, cs, seen, oks, es, now, maxAge)
    ensures PollRan(d, a, e, listing, all, now, maxAge)
  {
    hide ThreePhases, Polled, Accounted, ReadWithin, SortedFrom, CombinedChoice, Follows, Matches;
    all := map id | id in a.records.Keys + cs.Keys :: CombinedChoice(id, cs, oks, es, a.last);
    PhasesFollow(d, a, b, c, e, listing, cs, seen, oks, es, now, maxAge);
    forall id
      ensures id in all ==> Lookup(e.records, id) == Polled(d, Lookup(a.records, id), all[id], now, maxAge)
      ensures id !in all ==> id !in e.records
      ensures id in all ==> SortedFrom(all[id].sorted, Matches(listing, id))
      ensures id in all ==> ReadWithin(all[id], a.last, now) && a.last <= all[id].expiredAt <= e.last
      ensures id in all ==>
                Accounted(d, Lookup(a.records, id), Matches(listing, id), all[id], now, maxAge, e.calls, |a.calls|)
    {
      PhasesAt(d, a, b, c, e, listing, cs, seen, oks, es, now, maxAge, id);
      PhasesGroup(d, a, b, c, e, listing, cs, seen, oks, es, now, maxAge, id);
      PhasesAnswered(d, a, b, c, e, listing, cs, seen, oks, es, now, maxAge, id);
      assert Accounted(d, Lookup(a.records, id), Matches(listing, id), CombinedChoice(id, cs, oks, es, a.last), now, maxAge,
                       e.calls, |a.calls|) by { AccountedFrom(d, Lookup(a.records, id), Matches(listing, id),
                       CombinedChoice(id, cs, oks, es, a.last), now, maxAge, e.calls, |a.calls|); }
    }
  }

  lemma AccountedFrom(
    d: Driver, pre: Option<Record>, group: seq<Instance>, c: Choice, now: Time, maxAge: int,
    calls: seq<(string, bool)>, from: nat)
    requires Partitioned(d, group, c, calls, from)
    requires CleanupAnswered(d, ListStep(d, pre, c, maxAge), Seen(d, c), c.cleanupOk, calls, from)
    requires ExpiryAnswered(d, Counted(d, pre, c, maxAge), now, maxAge, c.expireOk, calls, from)
    ensures Accounted(d, pre, group, c, now, maxAge, calls, from)
  {
  }

  lemma PhasesFollow(
    d: Driver, a: Moment, b: Moment, c: Moment, e: Moment, listing: seq<Instance>, cs: map<string, Choice>, seen: set<string>,
    oks: map<string, bool>, es: map<string, Expiry>, now: Time, maxAge: int)
    requires ThreePhases(d, a, b, c, e, listing, cs, seen, oks, es, now, maxAge)
    ensures Follows(a, b) && Follows(b, c) && Follows(c, e) && Follows(a, e)
    ensures |a.calls| <= |b.calls| <= |c.calls| && b.calls <= c.calls <= e.calls
    ensures a.last <= b.last <= c.last <= now <= e.last
    ensures forall x :: x in listing && x.sandboxId != "" ==> x.sandboxId in cs
  {
    hide SandboxDone, CountStep, ExpireStep, Answered, CleanupAnswered, ExpiryAnswered, Seen, Expires, Explains;
    FollowsTrans(a, b, c);
    FollowsTrans(a, c, e);
  }

  // The three phases at one sandbox are one poll of it.
  lemma PhasesAt(
    d: Driver, a: Moment, b: Moment, c: Moment, e: Moment, listing: seq<Instance>, cs: map<string, Choice>, seen: set<string>,
    oks: map<string, bool>, es: map<string, Expiry>, now: Time, maxAge: int, id: string)
    requires ThreePhases(d, a, b, c, e, listing, cs, seen, oks, es, now, maxAge)
    ensures
      var ch := CombinedChoice(id, cs, oks, es, a.last);
      && Lookup(b.records, id) == ListStep(d, Lookup(a.records, id), ch, maxAge)
      && Lookup(c.records, id) == Counted(d, Lookup(a.records, id), ch, maxAge)
      && Lookup(e.records, id) == Polled(d, Lookup(a.records, id), ch, now, maxAge)
      && (id in seen <==> Seen(d, ch))
    ensures id !in a.records && id !in cs ==> id !in e.records
  {
    hide Follows, Partitioned, SortedFrom, Answered, CleanupAnswered, ExpiryAnswered, ReadWithin, IsExpired;
    hide Recovered, Refresh, NeedsUpdate, KeeperIndex;
    var ch := CombinedChoice(id, cs, oks, es, a.last);
    assert Lookup(b.records, id) == ListStep(d, Lookup(a.records, id), ch, maxAge);
    assert Lookup(c.records, id) == CountStep(Lookup(b.records, id), Seen(d, ch), ch.cleanupOk);
    assert Lookup(e.records, id) == ExpireStep(Lookup(c.records, id), Goal(d), now, maxAge, ch.expireOk, ch.expiredAt);
  }

  lemma PhasesGroup(
    d: Driver, a: Moment, b: Moment, c: Moment, e: Moment, listing: seq<Instance>, cs: map<string, Choice>, seen: set<string>,
    oks: map<string, bool>, es: map<string, Expiry>, now: Time, maxAge: int, id: string)
    requires ThreePhases(d, a, b, c, e, listing, cs, seen, oks, es, now, maxAge)
    ensures
      var ch := CombinedChoice(id, cs, oks, es, a.last);
      && SortedFrom(ch.sorted, Matches(listing, id))
      && ReadWithin(ch, a.last, now) && a.last <= ch.expiredAt <= e.last
      && Partitioned(d, Matches(listing, id), ch, e.calls, |a.calls|)
  {
    PhasesFollow(d, a, b, c, e, listing, cs, seen, oks, es, now, maxAge);
    hide CountedSoFar, ListStep, Explains, Expires, ExpireStep, ExpiryAnswered, Matches, SortedFrom, KeeperIndex, Answered;
    if id in cs {
      assert SandboxDone(d, a, b, id, listing, cs[id], maxAge);
      forall x | x in Matches(listing, id) && Terminated(b.calls, |a.calls|, x.id)
        ensures Terminated(e.calls, |a.calls|, x.id)
      {
        AnswerStays(b.calls, e.calls, |a.calls|, |a.calls|, x.id, true);
      }
    } else {
      NothingMatches(listing, cs, id);
      SortedNothing();
    }
  }

  lemma SortedNothing()
    ensures SortedFrom([], [])
  {
  }

  lemma NothingMatches(listing: seq<Instance>, cs: map<string, Choice>, id: string)
    requires forall x :: x in listing && x.sandboxId != "" ==> x.sandboxId in cs
    requires id !in cs
    ensures Matches(listing, id) == []
  {
    MatchesMembers(listing, id);
    if Matches(listing, id) != [] { HasMember(Matches(listing, id)); }
  }

  lemma PhasesAnswered(
    d: Driver, a: Moment, b: Moment, c: Moment, e: Moment, listing: seq<Instance>, cs: map<string, Choice>, seen: set<string>,
    oks: map<string, bool>, es: map<string, Expiry>, now: Time, maxAge: int, id: string)
    requires ThreePhases(d, a, b, c, e, listing, cs, seen, oks, es, now, maxAge)
    ensures
      var ch := CombinedChoice(id, cs, oks, es, a.last);
      && CleanupAnswered(d, ListStep(d, Lookup(a.records, id), ch, maxAge), Seen(d, ch), ch.cleanupOk, e.calls, |a.calls|)
      && ExpiryAnswered(d, Counted(d, Lookup(a.records, id), ch, maxAge), now, maxAge, ch.expireOk, e.calls, |a.calls|)
  {
    PhasesFollow(d, a, b, c, e, listing, cs, seen, oks, es, now, maxAge);
    PhasesAt(d, a, b, c, e, listing, cs, seen, oks, es, now, maxAge, id);
    var ch := CombinedChoice(id, cs, oks, es, a.last);
    CleanupAt(d, b, c, seen, oks, id);
    ExpiryAt(d, c, e, now, es, maxAge, id);
    hide ThreePhases, Follows, Answered, CleanupAnswered, ExpiryAnswered, ListStep, Counted, Polled, Seen;
    CleanupStays(d, Lookup(b.records, id), id in seen, ch.cleanupOk, c.calls, e.calls, |a.calls|, |b.calls|);
    ExpiryStays(d, Lookup(c.records, id), now, maxAge, ch.expireOk, e.calls, e.calls, |a.calls|, |c.calls|);
  }

  lemma CleanupAt(d: Driver, b: Moment, c: Moment, seen: set<string>, oks: map<string, bool>, id: string)
    requires CountedSoFar(d, b, c, seen, oks) && b.records.Keys <= oks.Keys
    ensures CleanupAnswered(d, Lookup(b.records, id), id in seen, id in oks ==> oks[id], c.calls, |b.calls|)
  {
    hide Follows, Answered, CountStep;
  }

  lemma ExpiryAt(d: Driver, c: Moment, e: Moment, now: Time, es: map<string, Expiry>, maxAge: int, id: string)
    requires ExpiredSoFar(d, c, e, now, es, maxAge)
    requires forall k :: k in c.records && Expires(c.records[k], Goal(d), now, maxAge) ==> k in es
    ensures ExpiryAnswered(d, Lookup(c.records, id), now, maxAge, id in es ==> es[id].ok, e.calls, |c.calls|)
  {
    hide Follows, Answered, ExpireStep, Expires;
  }
}
