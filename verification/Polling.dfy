// What the polls of both drivers share: what they can observe, the recovery of
// an unknown sandbox, and the loop over expired records.
module Polling {
  import opened Records
  import opened Store
  import opened Fleet
  import opened Transitions
  import opened Reconcile
  import opened Registry
  import opened Replay
  import opened Adversary

  // ---- The provider's log ------------------------------------------------------

  // Terminate was called on an instance since a position in the log, with this
  // answer.
  ghost predicate Answered(calls: seq<(string, bool)>, from: nat, id: string, ok: bool) {
    from <= |calls| && (id, ok) in calls[from..]
  }

  ghost predicate Terminated(calls: seq<(string, bool)>, from: nat, id: string) {
    Answered(calls, from, id, true)
  }

  // An answer stays in a longer log, and counts from an earlier position on.
  lemma AnswerStays(calls: seq<(string, bool)>, more: seq<(string, bool)>, from: nat, later: nat, id: string, ok: bool)
    requires calls <= more && from <= later && Answered(calls, later, id, ok)
    ensures Answered(more, from, id, ok)
  {
    var k :| 0 <= k < |calls[later..]| && calls[later..][k] == (id, ok);
    assert more[from..][later - from + k] == (id, ok);
  }

  lemma JustAnswered(calls: seq<(string, bool)>, id: string, ok: bool)
    ensures Answered(calls + [(id, ok)], |calls|, id, ok)
  {
    assert (calls + [(id, ok)])[|calls|..] == [(id, ok)];
  }

  lemma AllTerminated(calls: seq<(string, bool)>, ids: seq<string>)
    ensures forall id :: id in ids ==> Terminated(calls + Logged(ids, true), |calls|, id)
  {
    forall id | id in ids ensures Terminated(calls + Logged(ids, true), |calls|, id) {
      var k :| 0 <= k < |ids| && ids[k] == id;
      assert (calls + Logged(ids, true))[|calls|..][k] == (id, true);
    }
  }

  // No Terminate call since a position in the log failed.
  ghost predicate NoFailures(calls: seq<(string, bool)>, from: nat) {
    forall k :: from <= k < |calls| ==> calls[k].1
  }

  lemma NoFailureAnswered(calls: seq<(string, bool)>, from: nat, id: string, ok: bool)
    requires NoFailures(calls, from) && Answered(calls, from, id, ok)
    ensures ok
  {
    var k :| 0 <= k < |calls[from..]| && calls[from..][k] == (id, ok);
    assert calls[from + k].1;
  }

  // ---- Moments -----------------------------------------------------------------

  // What watchers have done: the broadcasts before each Subscribe, what was
  // received, who is still registered and who was disconnected for being slow.
  datatype Readers = Readers(
    since: map<nat, nat>, received: map<nat, seq<Event>>, watchers: set<nat>, overflowed: set<nat>)

  // No watcher subscribed, read or came back, and one that left had overflowed.
  ghost predicate ReadersStay(a: Readers, b: Readers) {
    && b.since == a.since && b.received == a.received
    && b.watchers <= a.watchers && a.overflowed <= b.overflowed && a.watchers - b.watchers <= b.overflowed
  }

  // What a poll can observe at one moment: the broadcasts so far, the records,
  // the readers, the provider's log and the last reading of the clock.
  datatype Moment = Moment(
    told: seq<Event>, records: map<string, Record>, readers: Readers, calls: seq<(string, bool)>, last: Time)

  // Between two moments the log and the clock moved forward, the readers stayed
  // and the broadcasts explain the change of the records.
  ghost predicate Follows(a: Moment, b: Moment) {
    && a.calls <= b.calls && a.last <= b.last && ReadersStay(a.readers, b.readers)
    && a.told <= b.told && Explains(b.told[|a.told|..], a.records, b.records)
  }

  lemma FollowsTrans(a: Moment, b: Moment, c: Moment)
    requires Follows(a, b) && Follows(b, c)
    ensures Follows(a, c)
  {
    ReplayAppend(Project(a.records), b.told[|a.told|..], c.told[|b.told|..]);
    assert c.told[|a.told|..] == b.told[|a.told|..] + c.told[|b.told|..];
  }

  lemma FollowsSelf(a: Moment)
    ensures Follows(a, a)
  {
    ExplainsNothing(a.records);
  }

  ghost predicate Quietly(a: Moment, b: Moment) {
    a.calls <= b.calls && a.last <= b.last && ReadersStay(a.readers, b.readers)
  }

  lemma TellsNothing(a: Moment, b: Moment)
    requires Quietly(a, b) && b.told == a.told && b.records == a.records
    ensures Follows(a, b)
  {
    ExplainsNothing(a.records);
    assert b.told[|a.told|..] == [];
  }

  lemma TellsWrite(a: Moment, b: Moment, id: string, r: Record)
    requires Quietly(a, b) && r.sandboxId == id
    requires b.told == a.told + [SandboxEvent(ToDriverSandbox(r))] && b.records == a.records[id := r]
    ensures Follows(a, b)
  {
    ExplainsNothing(a.records);
    ExplainsWrite([], a.records, a.records, id, r);
    assert b.told[|a.told|..] == [] + [SandboxEvent(ToDriverSandbox(r))];
  }

  // A write the outbound view does not show needs no broadcast.
  lemma TellsSilently(a: Moment, b: Moment, id: string, r: Record)
    requires Quietly(a, b) && id in a.records && ToDriverSandbox(a.records[id]) == ToDriverSandbox(r)
    requires b.told == a.told && b.records == a.records[id := r]
    ensures Follows(a, b)
  {
    ExplainsNothing(a.records);
    ExplainsSilentWrite([], a.records, a.records, id, r);
    assert b.told[|a.told|..] == [];
  }

  lemma TellsDelete(a: Moment, b: Moment, id: string)
    requires Quietly(a, b)
    requires b.told == a.told + [DeletedEvent(id)] && b.records == a.records - {id}
    ensures Follows(a, b)
  {
    ExplainsNothing(a.records);
    ExplainsDelete([], a.records, a.records, id);
    assert b.told[|a.told|..] == [] + [DeletedEvent(id)];
  }

  // A refresh tells watchers exactly when it changes what they see.
  lemma RefreshTold(d: Driver, a: Moment, b: Moment, id: string, x: Instance, at: Time)
    requires Quietly(a, b) && id in a.records && a.records[id].sandboxId == id && Redacted(a.records[id])
    requires
      var rec := a.records[id];
      var r := Redact(Refresh(rec, x, Observed(d, rec, x), at));
      && b.records == a.records[id := r]
      && b.told == if rec.state != Observed(d, rec, x) then a.told + [SandboxEvent(ToDriverSandbox(r))] else a.told
    ensures Follows(a, b)
  {
    hide Follows, Quietly;
    var rec := a.records[id];
    var r := Redact(Refresh(rec, x, Observed(d, rec, x), at));
    if rec.state != Observed(d, rec, x) { TellsWrite(a, b, id, r); } else { TellsSilently(a, b, id, r); }
  }

  ghost function At(registry: Registry, provider: Provider, clock: Clock): Moment
    reads registry, provider, clock
  {
    Moment(registry.broadcasts, registry.records,
           Readers(registry.since, registry.received, registry.watchers, registry.overflowed),
           provider.calls, clock.last)
  }

  // ---- Outcomes of the calls a poll owes ------------------------------------------

  // The cleanup this sandbox owes was asked for its own instance, and `ok` is
  // the answer; without one, `ok` is true.
  ghost predicate CleanupAnswered(
    d: Driver, pre: Option<Record>, seen: bool, ok: bool, calls: seq<(string, bool)>, from: nat)
  {
    if OwesCleanup(d, pre, seen) then Answered(calls, from, pre.value.instanceId, ok) else ok
  }

  ghost predicate ExpiryAnswered(
    d: Driver, pre: Option<Record>, now: Time, maxAge: int, ok: bool, calls: seq<(string, bool)>, from: nat)
  {
    if OwesExpiry(d, pre, now, maxAge) then Answered(calls, from, pre.value.instanceId, ok) else ok
  }

  // ---- Counting misses -----------------------------------------------------

  // One turn of the absence loop on a tracked sandbox.
  ghost predicate MissDone(d: Driver, a: Moment, b: Moment, id: string, seen: bool, ok: bool) {
    && Follows(a, b)
    && Lookup(b.records, id) == CountStep(Lookup(a.records, id), seen, ok)
    && (forall k :: k != id ==> Lookup(b.records, k) == Lookup(a.records, k))
    && CleanupAnswered(d, Lookup(a.records, id), seen, ok, b.calls, |a.calls|)
  }

  // The absence loop has dealt with the sandboxes in `oks` and no others.
  ghost predicate CountedSoFar(d: Driver, a: Moment, b: Moment, seen: set<string>, oks: map<string, bool>) {
    && Follows(a, b)
    && (forall id :: id in oks ==>
          && Lookup(b.records, id) == CountStep(Lookup(a.records, id), id in seen, oks[id])
          && CleanupAnswered(d, Lookup(a.records, id), id in seen, oks[id], b.calls, |a.calls|))
    && (forall id :: id !in oks ==> Lookup(b.records, id) == Lookup(a.records, id))
  }

  lemma CleanupStays(
    d: Driver, pre: Option<Record>, seen: bool, ok: bool, calls: seq<(string, bool)>, more: seq<(string, bool)>,
    from: nat, later: nat)
    requires CleanupAnswered(d, pre, seen, ok, calls, later) && calls <= more && from <= later
    ensures CleanupAnswered(d, pre, seen, ok, more, from)
  {
    if OwesCleanup(d, pre, seen) { AnswerStays(calls, more, from, later, pre.value.instanceId, ok); }
  }

  lemma CountedNext(
    d: Driver, a: Moment, b: Moment, b': Moment, seen: set<string>, oks: map<string, bool>, id: string, ok: bool)
    requires CountedSoFar(d, a, b, seen, oks) && id !in oks && MissDone(d, b, b', id, id in seen, ok)
    ensures CountedSoFar(d, a, b', seen, oks[id := ok])
  {
    hide Explains, CountStep, CleanupAnswered;
    FollowsTrans(a, b, b');
    forall k | k in oks
      ensures CleanupAnswered(d, Lookup(a.records, k), k in seen, oks[k], b'.calls, |a.calls|)
    {
      CleanupStays(d, Lookup(a.records, k), k in seen, oks[k], b.calls, b'.calls, |a.calls|, |a.calls|);
    }
    CleanupStays(d, Lookup(b.records, id), id in seen, ok, b'.calls, b'.calls, |a.calls|, |b.calls|);
  }

  lemma CountedNothing(d: Driver, a: Moment, seen: set<string>)
    ensures CountedSoFar(d, a, a, seen, map[])
  {
    FollowsSelf(a);
  }

  lemma MissSkipped(d: Driver, a: Moment, id: string, seen: bool)
    requires id in a.records && (!a.records[id].Bound() || seen)
    ensures MissDone(d, a, a, id, seen, true)
  {
    FollowsSelf(a);
  }

  lemma NotCounted(d: Driver, a: Moment, b: Moment, seen: set<string>, oks: map<string, bool>, id: string)
    requires CountedSoFar(d, a, b, seen, oks) && id !in oks
    ensures Lookup(b.records, id) == Lookup(a.records, id)
  {
  }

  function Missed(rec: Record): Record {
    Redact(rec.(missingPolls := rec.missingPolls + 1))
  }

  // A miss was counted and the record kept: below the threshold, or because the
  // cleanup was refused.
  lemma MissKept(d: Driver, a: Moment, b: Moment, id: string, ok: bool)
    requires id in a.records && a.records[id].Bound()
    requires if ok then b.calls == a.calls && Missed(a.records[id]).missingPolls < MISSING_POLL_THRESHOLD
             else d.KubeVirt? && b.calls == a.calls + [(a.records[id].instanceId, false)]
                  && Missed(a.records[id]).missingPolls >= MISSING_POLL_THRESHOLD
    requires b == a.(records := a.records[id := Missed(a.records[id])], calls := b.calls)
    ensures MissDone(d, a, b, id, false, ok)
  {
    TellsSilently(a, b, id, Missed(a.records[id]));
    JustAnswered(a.calls, a.records[id].instanceId, false);
  }

  // The record left at the threshold, under KubeVirt after a confirmed cleanup.
  lemma MissRemoved(d: Driver, a: Moment, b: Moment, id: string)
    requires id in a.records && a.records[id].Bound() && Missed(a.records[id]).missingPolls >= MISSING_POLL_THRESHOLD
    requires b.records == a.records - {id} && b.told == a.told + [DeletedEvent(id)] && Quietly(a, b)
    requires d.KubeVirt? ==> b.calls == a.calls + [(a.records[id].instanceId, true)]
    ensures MissDone(d, a, b, id, false, true)
  {
    TellsDelete(a, b, id);
    JustAnswered(a.calls, a.records[id].instanceId, true);
  }

  // ---- Recovery ------------------------------------------------------------

  // No record of the instance's sandbox: rebuild one.
  method Recover(registry: Registry, provider: Provider, clock: Clock, maxAge: int, x: Instance)
    returns (ghost statusAt: Time, ghost comparedAt: Time, ghost clampedAt: Time, ghost lease: nat)
    requires registry.Valid() && x.sandboxId !in registry.records
    modifies registry, clock
    ensures registry.Valid() && Follows(old(At(registry, provider, clock)), At(registry, provider, clock))
    ensures registry.records == old(registry.records)[
              x.sandboxId := Redact(Recovered(x, statusAt, comparedAt, clampedAt, maxAge).(lease := lease))]
    ensures registry.broadcasts == old(registry.broadcasts) + [SandboxEvent(ToDriverSandbox(registry.records[x.sandboxId]))]
    ensures old(clock.last) <= statusAt <= comparedAt <= clampedAt <= clock.last
  {
    hide FanOutInv, Follows, IsExpired;
    ghost var start := At(registry, provider, clock);
    var created := clock.Now();
    statusAt := created;
    var recovered := RecordFromInstance(x, created);
    var untrusted := recovered.createdAt == ZERO_TIME;
    comparedAt := created;
    if !untrusted {
      var compared := clock.Now();
      comparedAt := compared;
      untrusted := recovered.createdAt > compared + CLOCK_SKEW;
    }
    clampedAt := comparedAt;
    if untrusted {
      var now := clock.Now();
      clampedAt := now;
      recovered := recovered.(createdAt := now - maxAge - SECOND);
    }
    assert recovered == Recovered(x, statusAt, comparedAt, clampedAt, maxAge);
    var added := registry.Add(recovered);
    assert added;
    lease := registry.nextLease;
    registry.Broadcast(SandboxEvent(ToDriverSandbox(recovered)));
    TellsWrite(start, At(registry, provider, clock), x.sandboxId, Redact(recovered.(lease := registry.nextLease)));
  }

  // ---- Expiry --------------------------------------------------------------

  // How the expiry loop dealt with one sandbox.
  datatype Expiry = Expiry(ok: bool, at: Time)

  ghost predicate ExpiryDone(d: Driver, a: Moment, b: Moment, id: string, now: Time, e: Expiry, maxAge: int) {
    && Follows(a, b) && a.last <= e.at <= b.last
    && Lookup(b.records, id) == ExpireStep(Lookup(a.records, id), Goal(d), now, maxAge, e.ok, e.at)
    && (forall k :: k != id ==> Lookup(b.records, k) == Lookup(a.records, k))
    && ExpiryAnswered(d, Lookup(a.records, id), now, maxAge, e.ok, b.calls, |a.calls|)
  }

  // The expiry loop has dealt with the sandboxes in `es` and no others.
  ghost predicate ExpiredSoFar(d: Driver, a: Moment, b: Moment, now: Time, es: map<string, Expiry>, maxAge: int) {
    && Follows(a, b)
    && (forall id :: id in es ==>
          && a.last <= es[id].at <= b.last
          && Lookup(b.records, id) == ExpireStep(Lookup(a.records, id), Goal(d), now, maxAge, es[id].ok, es[id].at)
          && ExpiryAnswered(d, Lookup(a.records, id), now, maxAge, es[id].ok, b.calls, |a.calls|))
    && (forall id :: id !in es ==> Lookup(b.records, id) == Lookup(a.records, id))
  }

  lemma ExpiryStays(
    d: Driver, pre: Option<Record>, now: Time, maxAge: int, ok: bool, calls: seq<(string, bool)>, more: seq<(string, bool)>,
    from: nat, later: nat)
    requires ExpiryAnswered(d, pre, now, maxAge, ok, calls, later) && calls <= more && from <= later
    ensures ExpiryAnswered(d, pre, now, maxAge, ok, more, from)
  {
    hide Expires;
    if OwesExpiry(d, pre, now, maxAge) { AnswerStays(calls, more, from, later, pre.value.instanceId, ok); }
  }

  lemma ExpiredNext(
    d: Driver, a: Moment, b: Moment, b': Moment, now: Time, es: map<string, Expiry>, id: string, e: Expiry, maxAge: int)
    requires ExpiredSoFar(d, a, b, now, es, maxAge) && id !in es && ExpiryDone(d, b, b', id, now, e, maxAge)
    ensures ExpiredSoFar(d, a, b', now, es[id := e], maxAge)
  {
    hide Explains, ExpireStep, ExpiryAnswered;
    FollowsTrans(a, b, b');
    forall k | k in es
      ensures ExpiryAnswered(d, Lookup(a.records, k), now, maxAge, es[k].ok, b'.calls, |a.calls|)
    {
      ExpiryStays(d, Lookup(a.records, k), now, maxAge, es[k].ok, b.calls, b'.calls, |a.calls|, |a.calls|);
    }
    ExpiryStays(d, Lookup(b.records, id), now, maxAge, e.ok, b'.calls, b'.calls, |a.calls|, |b.calls|);
  }

  lemma ExpiredNothing(d: Driver, a: Moment, b: Moment, now: Time, maxAge: int)
    requires b == a.(last := b.last) && a.last <= b.last
    ensures ExpiredSoFar(d, a, b, now, map[], maxAge)
  {
    TellsNothing(a, b);
  }

  lemma NotExpired(d: Driver, a: Moment, b: Moment, now: Time, es: map<string, Expiry>, id: string, maxAge: int)
    requires ExpiredSoFar(d, a, b, now, es, maxAge) && id !in es
    ensures Lookup(b.records, id) == Lookup(a.records, id)
  {
  }

  lemma ExpiryRefused(d: Driver, a: Moment, b: Moment, id: string, now: Time, maxAge: int)
    requires OwesExpiry(d, Lookup(a.records, id), now, maxAge)
    requires b == a.(calls := a.calls + [(a.records[id].instanceId, false)])
    ensures ExpiryDone(d, a, b, id, now, Expiry(false, a.last), maxAge)
  {
    hide Expires;
    TellsNothing(a, b);
    JustAnswered(a.calls, a.records[id].instanceId, false);
  }

  lemma ExpiryMarked(d: Driver, a: Moment, b: Moment, id: string, now: Time, at: Time, maxAge: int)
    requires OwesExpiry(d, Lookup(a.records, id), now, maxAge) && a.records[id].sandboxId == id
    requires Quietly(a, b) && b.calls == a.calls + [(a.records[id].instanceId, true)] && a.last <= at <= b.last
    requires
      var r := Redact(WithState(a.records[id], Goal(d), at));
      b.records == a.records[id := r] && b.told == a.told + [SandboxEvent(ToDriverSandbox(r))]
    ensures ExpiryDone(d, a, b, id, now, Expiry(true, at), maxAge)
  {
    hide Expires;
    TellsWrite(a, b, id, Redact(WithState(a.records[id], Goal(d), at)));
    JustAnswered(a.calls, a.records[id].instanceId, true);
  }

  // One turn of the expiry loop. The guard is what the driver demands of the
  // record it updates; the record it selected meets it.
  method ExpireOne(
    d: Driver, registry: Registry, provider: Provider, clock: Clock, maxAge: int, guard: Record -> bool,
    rec: Record, now: Time) returns (ghost e: Expiry)
    requires registry.Valid() && Lookup(registry.records, rec.sandboxId) == Some(rec) && Expires(rec, Goal(d), now, maxAge)
    requires guard(rec)
    modifies registry, provider, clock
    ensures registry.Valid() && old(clock.last) <= clock.last
    ensures ExpiryDone(d, old(At(registry, provider, clock)), At(registry, provider, clock), rec.sandboxId, now, e, maxAge)
    ensures rec.sandboxId in registry.records
    ensures registry.broadcasts == old(registry.broadcasts) +
            if e.ok then [SandboxEvent(ToDriverSandbox(registry.records[rec.sandboxId]))] else []
  {
    hide FanOutInv, Expires, ExpiryDone, FullOf, KeepsIdentity, WithState;
    ghost var start := At(registry, provider, clock);
    var id := rec.sandboxId;
    var ok := provider.Terminate(rec.instanceId);
    e := Expiry(ok, clock.last);
    if !ok {
      ExpiryRefused(d, start, At(registry, provider, clock), id, now, maxAge);
      return;
    }
    var at := clock.Now();
    e := Expiry(true, at);
    ActKeepsIdentity(Goal(d), at);
    var updated := registry.UpdateIf(id, guard, ActChange(Goal(d), at));
    assert updated == Some(Redact(WithState(rec, Goal(d), at)));
    registry.Broadcast(SandboxEvent(ToDriverSandbox(updated.value)));
    ExpiryMarked(d, start, At(registry, provider, clock), id, now, at, maxAge);
  }

  // The expiry loop over what Expired selects at one reading of the clock.
  method ExpireOld(
    d: Driver, registry: Registry, provider: Provider, clock: Clock, maxAge: int, guard: Record -> Record -> bool)
    returns (now: Time, ghost es: map<string, Expiry>)
    requires registry.Valid() && registry.maxAge == maxAge && forall r: Record :: guard(r)(r)
    modifies registry, provider, clock
    ensures registry.Valid() && old(clock.last) <= now <= clock.last
    ensures ExpiredSoFar(d, old(At(registry, provider, clock)), At(registry, provider, clock), now, es, maxAge)
    ensures forall id :: id in old(registry.records) && Expires(old(registry.records)[id], Goal(d), now, maxAge) ==> id in es
  {
    hide FanOutInv, ExpiryDone, ExpiredSoFar, IsExpired;
    ghost var start := At(registry, provider, clock);
    now := clock.Now();
    var due := registry.Expired(now);
    es := map[];
    ExpiredNothing(d, start, At(registry, provider, clock), now, maxAge);
    for i := 0 to |due|
      invariant registry.Valid() && now <= clock.last
      invariant ExpiredSoFar(d, start, At(registry, provider, clock), now, es, maxAge)
      invariant forall id :: id in es ==> exists j :: 0 <= j < i && due[j].sandboxId == id
      invariant forall j :: 0 <= j < i && Expires(due[j], Goal(d), now, maxAge) ==> due[j].sandboxId in es
    {
      var rec := due[i];
      assert rec in due && rec.sandboxId !in es;
      if !rec.Bound() || rec.state == Goal(d) { continue; }
      ghost var before := At(registry, provider, clock);
      NotExpired(d, start, before, now, es, rec.sandboxId, maxAge);
      ghost var e := ExpireOne(d, registry, provider, clock, maxAge, guard(rec), rec, now);
      ExpiredNext(d, start, before, At(registry, provider, clock), now, es, rec.sandboxId, e, maxAge);
      es := es[rec.sandboxId := e];
    }
    forall id | id in start.records && Expires(start.records[id], Goal(d), now, maxAge) ensures id in es {
      assert start.records[id] in due;
    }
  }
}
