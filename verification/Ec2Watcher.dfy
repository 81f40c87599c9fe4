// EC2Driver.poll, alone with the registry: the three loops in place.
module Ec2Watcher {
  import opened Records
  import opened Store
  import opened Fleet
  import opened Transitions
  import opened Reconcile
  import opened Ec2Writes
  import opened Registry
  import opened Adversary
  import opened Polling
  import opened Phases
  import opened Sorting

  class EC2Driver {
    const registry: Registry
    const provider: Provider
    const clock: Clock
    const maxAge: int

    constructor (registry: Registry, provider: Provider, clock: Clock, maxAge: int)
      ensures this.registry == registry && this.provider == provider && this.clock == clock && this.maxAge == maxAge
    {
      this.registry, this.provider, this.clock, this.maxAge := registry, provider, clock, maxAge;
    }

    ghost predicate Valid()
      reads registry
    {
      registry.Valid() && maxAge > 0 && registry.maxAge == maxAge
    }

    ghost function Now(): Moment
      reads registry, provider, clock
    {
      At(registry, provider, clock)
    }

    // Sort, keep the oldest, terminate every other that is not terminated yet.
    method ResolveDuplicates(group: seq<Instance>) returns (ok: bool, kept: Instance, ghost sorted: seq<Instance>)
      requires group != []
      modifies provider
      ensures SortedFrom(sorted, group) && sorted != [] && kept == sorted[0]
      ensures old(provider.calls) <= provider.calls
      ensures ok ==> forall x :: x in group && x.state != TERMINATED ==>
                x == kept || Terminated(provider.calls, |old(provider.calls)|, x.id)
    {
      var matches := new Instance[|group|](i requires 0 <= i < |group| => group[i]);
      assert matches[..] == group;
      SortByAge(matches);
      sorted := matches[..];
      assert |sorted| == matches.Length;
      kept := matches[0];
      var duplicates: seq<string> := [];
      for i := 1 to matches.Length
        invariant forall j :: 1 <= j < i && matches[j].state != TERMINATED ==> matches[j].id in duplicates
      {
        if matches[i].state != TERMINATED { duplicates := duplicates + [matches[i].id]; }
      }
      ok := provider.TerminateAll(duplicates);
      if ok {
        AllTerminated(old(provider.calls), duplicates);
        SameMembers(sorted, group);
        forall x | x in group && x.state != TERMINATED
          ensures x == kept || Terminated(provider.calls, |old(provider.calls)|, x.id)
        {
          var i :| 0 <= i < |sorted| && sorted[i] == x;
        }
      }
    }

    // A known sandbox: bind it to its instance and take over the listed state.
    method RefreshSandbox(id: string, rec: Record, x: Instance) returns (ghost at: Time)
      requires Valid() && id in registry.records && registry.records[id] == rec
      modifies registry, clock
      ensures Valid() && Follows(old(Now()), Now())
      ensures Lookup(registry.records, id) == Some(
                if NeedsUpdate(EC2, rec, x) then Redact(Refresh(rec, x, Observed(EC2, rec, x), at)) else rec)
      ensures registry.records == old(registry.records)[id := registry.records[id]]
      ensures registry.broadcasts == old(registry.broadcasts) +
              if rec.state != x.state then [SandboxEvent(ToDriverSandbox(registry.records[id]))] else []
      ensures old(clock.last) <= at <= clock.last
    {
      hide FanOutInv, Follows, IsExpired, FullOf, Refresh, KeepsIdentity, WithoutToken;
      at := clock.last;
      ghost var start := Now();
      if rec.state != x.state || rec.instanceId != x.id || rec.missingPolls != 0 {
        var transition := clock.Now();
        at := transition;
        RefreshKeepsIdentity(x, x.state, transition);
        var updated := registry.UpdateIf(id, Unguarded(), RefreshChange(x, x.state, transition));
        assert updated == Some(Redact(Refresh(rec, x, x.state, transition)));
        if rec.state != x.state {
          registry.Broadcast(SandboxEvent(ToDriverSandbox(updated.value)));
        }
        RefreshTold(EC2, start, Now(), id, x, transition);
      } else {
        assert registry.records == start.records[id := rec];
        FollowsSelf(start);
      }
    }

    // The kept instance is terminated: forget the sandbox, known or not.
    method Forget(id: string)
      requires Valid()
      modifies registry
      ensures Valid() && registry.records == old(registry.records) - {id}
      ensures registry.broadcasts == old(registry.broadcasts) + if id in old(registry.records) then [DeletedEvent(id)] else []
      ensures Follows(old(Now()), Now())
    {
      hide FanOutInv, Follows, IsExpired, FullOf;
      ghost var start := Now();
      var removed := registry.Delete(id);
      if removed.Some? {
        registry.Broadcast(DeletedEvent(id));
        TellsDelete(start, Now(), id);
      } else {
        assert registry.records == start.records;
        FollowsSelf(start);
      }
    }

    // Forget, recover or refresh the sandbox of its kept instance.
    method Track(id: string, kept: Instance, ghost c: Choice) returns (ghost c': Choice)
      requires Valid() && Seen(EC2, c) && kept == Kept(EC2, c) && kept.sandboxId == id
      requires ReadWithin(c, clock.last, clock.last)
      modifies registry, clock
      ensures Valid() && c'.sorted == c.sorted
      ensures Tracked(EC2, old(Now()), Now(), id, c', maxAge)
    {
      hide FanOutInv, Follows, IsExpired, NeedsUpdate, Recovered, Refresh, Observed;
      if kept.state == TERMINATED {
        Forget(id);
        return c;
      }
      var rec := registry.Get(id);
      if rec.None? {
        ghost var statusAt, comparedAt, clampedAt, lease := Recover(registry, provider, clock, maxAge, kept);
        c' := c.(statusAt := statusAt, comparedAt := comparedAt, clampedAt := clampedAt, lease := lease);
      } else {
        ghost var at := RefreshSandbox(id, rec.value, kept);
        c' := c.(statusAt := at);
      }
    }

    // One turn of the first loop. It fails only when a duplicate could not be
    // terminated, before it has written anything.
    method ReconcileGroup(id: string, group: seq<Instance>) returns (ok: bool, ghost c: Choice)
      requires Valid() && group != [] && (forall x :: x in group ==> x.sandboxId == id)
      modifies registry, provider, clock
      ensures Valid() && Seen(EC2, c)
      ensures GroupDone(EC2, old(Now()), Now(), id, group, c, ok, maxAge)
    {
      hide FanOutInv, IsExpired, Answered, SortedFrom, GroupDone, Tracked;
      ghost var start := Now();
      ghost var sorted;
      var kept;
      ok, kept, sorted := ResolveDuplicates(group);
      c := Choice(sorted, clock.last, clock.last, clock.last, 0, true, true, clock.last);
      if !ok {
        GroupSkipped(EC2, start, Now(), id, group, c, ok, maxAge);
        return;
      }
      KeptIsListed(EC2, c, group);
      ghost var resolved := Now();
      c := Track(id, kept, c);
      GroupTracked(EC2, start, resolved, Now(), id, group, c, maxAge);
    }

    // The first loop: every sandbox of the listing, in any order.
    method ReconcileListing(listing: seq<Instance>) returns (ok: bool, seen: set<string>, ghost cs: map<string, Choice>)
      requires Valid()
      modifies registry, provider, clock
      ensures Valid() && ListedSoFar(EC2, old(Now()), Now(), listing, cs, if ok then seen else cs.Keys, maxAge)
      ensures ok ==> forall x :: x in listing && x.sandboxId != "" ==> x.sandboxId in cs
    {
      hide FanOutInv, GroupDone, ListedSoFar, Seen;
      var bySandbox := GroupBySandbox(listing);
      var todo := bySandbox.Keys;
      seen, cs := {}, map[];
      ghost var start := Now();
      ListedNothing(EC2, start, listing, maxAge);
      while todo != {}
        invariant Valid() && todo <= bySandbox.Keys && (forall id :: id in cs <==> id in bySandbox && id !in todo)
        invariant forall id :: id in seen <==> id in cs
        invariant ListedSoFar(EC2, start, Now(), listing, cs, seen, maxAge)
        decreases |todo|
      {
        var id :| id in todo;
        ghost var before, handled := Now(), seen;
        seen := seen + {id};
        ghost var c;
        ok, c := ReconcileGroup(id, bySandbox[id]);
        ListedNext(EC2, start, before, Now(), listing, cs, handled, id, c, ok, maxAge);
        if !ok {
          assert handled == cs.Keys;
          return;
        }
        cs := cs[id := c];
        todo := todo - {id};
      }
      ok := true;
    }

    // One turn of the absence loop: no cleanup is confirmed.
    method CountMissing(rec: Record)
      requires Valid() && Lookup(registry.records, rec.sandboxId) == Some(rec) && rec.Bound()
      modifies registry
      ensures Valid() && MissDone(EC2, old(Now()), Now(), rec.sandboxId, false, true)
      ensures registry.broadcasts == old(registry.broadcasts) +
              if rec.sandboxId in registry.records then [] else [DeletedEvent(rec.sandboxId)]
    {
      hide FanOutInv, IsExpired, MissDone, FullOf;
      var id := rec.sandboxId;
      ghost var start := Now();
      var updated := registry.UpdateIf(id, Unguarded(), CountMiss());
      assert updated == Some(Missed(rec));
      if updated.value.missingPolls >= MISSING_POLL_THRESHOLD {
        var removed := registry.Delete(id);
        registry.Broadcast(DeletedEvent(id));
        assert registry.records == start.records - {id};
        MissRemoved(EC2, start, Now(), id);
      } else {
        MissKept(EC2, start, Now(), id, true);
      }
    }

    // The absence loop over a snapshot of the registry.
    method CountAbsent(seen: set<string>) returns (ghost oks: map<string, bool>)
      requires Valid()
      modifies registry
      ensures Valid() && CountedSoFar(EC2, old(Now()), Now(), seen, oks) && old(registry.records).Keys <= oks.Keys
    {
      hide FanOutInv, MissDone, CountedSoFar;
      var all := registry.All();
      oks := map[];
      ghost var start := Now();
      CountedNothing(EC2, start, seen);
      for i := 0 to |all|
        invariant Valid() && CountedSoFar(EC2, start, Now(), seen, oks)
        invariant forall id :: id in oks <==> exists j :: 0 <= j < i && all[j].sandboxId == id
      {
        var rec := all[i];
        ghost var before := Now();
        assert rec in all && rec.sandboxId !in oks;
        NotCounted(EC2, start, before, seen, oks, rec.sandboxId);
        if !rec.Bound() || rec.sandboxId in seen {
          MissSkipped(EC2, before, rec.sandboxId, rec.sandboxId in seen);
        } else {
          CountMissing(rec);
        }
        CountedNext(EC2, start, before, Now(), seen, oks, rec.sandboxId, true);
        oks := oks[rec.sandboxId := true];
      }
      forall id | id in start.records ensures id in oks {
        assert start.records[id] in all;
      }
    }

    // Without a listing nothing moves. A duplicate that cannot be terminated
    // ends the poll after the sandboxes it had reached. Otherwise it is a
    // complete poll.
    method Poll(listing: Option<seq<Instance>>) returns (ok: bool, ghost cs: map<string, Choice>, ghost now: Time)
      requires Valid()
      modifies registry, provider, clock
      ensures Valid() && Follows(old(Now()), Now())
      ensures listing.None? ==> !ok && Now() == old(Now())
      ensures listing.Some? && !ok ==> AbortRel(EC2, old(registry.records), registry.records, listing.value, cs, maxAge)
      ensures ok ==> listing.Some? && PollRan(EC2, old(Now()), Now(), listing.value, cs, now, maxAge)
    {
      hide FanOutInv, ListedSoFar, CountedSoFar, ExpiredSoFar, AbortRel, PollRan, Follows;
      ghost var start := Now();
      FollowsSelf(start);
      ok, cs, now := false, map[], clock.last;
      if listing.None? { return; }
      var seen;
      ok, seen, cs := ReconcileListing(listing.value);
      ghost var listed := Now();
      AbortedAt(EC2, start, listed, listing.value, cs, if ok then seen else cs.Keys, maxAge);
      if !ok { return; }
      ghost var oks := CountAbsent(seen);
      ghost var counted := Now();
      ghost var es;
      var at;
      at, es := ExpireOld(EC2, registry, provider, clock, maxAge, (rec: Record) => Unguarded());
      now := at;
      assert ThreePhases(EC2, start, listed, counted, Now(), listing.value, cs, seen, oks, es, now, maxAge);
      cs := PollDone(EC2, start, listed, counted, Now(), listing.value, cs, seen, oks, es, now, maxAge);
      assert Follows(start, Now()) by { PollFollows(EC2, start, Now(), listing.value, cs, now, maxAge); }
    }
  }
}
