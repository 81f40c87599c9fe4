// KubeVirtDriver.poll, alone with the registry: the three loops in place.
module KubeWatcher {
  import opened Records
  import opened Store
  import opened Fleet
  import opened Transitions
  import opened Reconcile
  import opened KubeWrites
  import opened Registry
  import opened Adversary
  import opened Polling
  import opened Phases
  import opened Sorting

  class KubeVirtDriver {
    const registry: Registry
    const provider: Provider
    const clock: Clock
    const maxAge: int

    constructor (registry: Registry, provider: Provider, clock: Clock, maxAge: int)
      ensures this.registry == registry && this.provider == provider && this.clock == clock && this.maxAge == maxAge
    {
      this.registry, this.provider, this.clock, this.maxAge := registry, provider, clock, maxAge;
    }

    ghost predicate Valid()
      reads registry
    {
      registry.Valid() && maxAge > 0 && registry.maxAge == maxAge
    }

    ghost function Now(): Moment
      reads registry, provider, clock
    {
      At(registry, provider, clock)
    }

    // Every live instance of the group but the keeper.
    method TerminateDuplicates(live: array<Instance>, n: nat, keeper: nat) returns (ok: bool)
      requires keeper < n <= live.Length
      modifies provider
      ensures old(provider.calls) <= provider.calls
      ensures ok ==> forall i :: 0 <= i < n && i != keeper ==> Terminated(provider.calls, |old(provider.calls)|, live[i].id)
    {
      var names: seq<string> := [];
      for i := 0 to n
        invariant forall j :: 0 <= j < i && j != keeper ==> live[j].id in names
      {
        if i != keeper { names := names + [live[i].id]; }
      }
      ghost var start := provider.calls;
      for i := 0 to |names|
        invariant start <= provider.calls
        invariant forall j :: 0 <= j < i ==> Terminated(provider.calls, |start|, names[j])
      {
        ghost var before := provider.calls;
        var confirmed := provider.Terminate(names[i]);
        if !confirmed { return false; }
        JustAnswered(before, names[i], true);
        AnswerStays(provider.calls, provider.calls, |start|, |before|, names[i], true);
        forall j | 0 <= j < i ensures Terminated(provider.calls, |start|, names[j]) {
          AnswerStays(before, provider.calls, |start|, |start|, names[j], true);
        }
      }
      return true;
    }

    // A known sandbox: bind it to its keeper and take over the observed state.
    method RefreshSandbox(id: string, rec: Record, keeper: Instance) returns (ghost at: Time)
      requires Valid() && id in registry.records && registry.records[id] == rec
      modifies registry, clock
      ensures Valid() && Follows(old(Now()), Now())
      ensures Lookup(registry.records, id) == Some(
                if NeedsUpdate(KubeVirt, rec, keeper) then Redact(Refresh(rec, keeper, Observed(KubeVirt, rec, keeper), at)) else rec)
      ensures registry.records == old(registry.records)[id := registry.records[id]]
      ensures registry.broadcasts == old(registry.broadcasts) +
              if rec.state != Observed(KubeVirt, rec, keeper) then [SandboxEvent(ToDriverSandbox(registry.records[id]))] else []
      ensures old(clock.last) <= at <= clock.last
    {
      hide FanOutInv, Follows, IsExpired, FullOf, Refresh, KeepsIdentity, WithoutToken;
      at := clock.last;
      ghost var start := Now();
      var observed := keeper.state;
      if (rec.state == "deleting" || rec.state == "stopping") && observed == "Running" { observed := rec.state; }
      if rec.state != observed || rec.instanceId != keeper.id || rec.missingPolls != 0 {
        var transition := clock.Now();
        at := transition;
        RefreshKeepsIdentity(keeper, observed, transition);
        var updated := registry.UpdateIf(id, RefreshAccepts(rec), RefreshChange(keeper, observed, transition));
        assert updated == Some(Redact(Refresh(rec, keeper, observed, transition)));
        if updated.Some? && rec.state != observed {
          registry.Broadcast(SandboxEvent(ToDriverSandbox(updated.value)));
        }
        RefreshTold(KubeVirt, start, Now(), id, keeper, transition);
      } else {
        assert registry.records == start.records[id := rec];
        FollowsSelf(start);
      }
    }

    // Sort, drop terminal instances, choose the keeper, terminate the others.
    method ResolveDuplicates(group: seq<Instance>) returns (ok: bool, keeper: Option<Instance>, ghost sorted: seq<Instance>)
      modifies provider
      ensures SortedFrom(sorted, group) && old(provider.calls) <= provider.calls
      ensures keeper == if Live(sorted) == [] then None else Some(Live(sorted)[KeeperIndex(Live(sorted))])
      ensures !ok ==> keeper.Some?
      ensures ok ==> forall x :: x in group && !IsTerminal(x.state) ==>
                keeper == Some(x) || Terminated(provider.calls, |old(provider.calls)|, x.id)
    {
      var matches := new Instance[|group|](i requires 0 <= i < |group| => group[i]);
      assert matches[..] == group;
      SortByAge(matches);
      sorted := matches[..];
      var n := CompactLive(matches);
      SameMembers(sorted, group);
      LiveMembers(sorted);
      if n == 0 { return true, None, sorted; }
      var k := ChooseKeeper(matches, n);
      keeper := Some(matches[k]);
      assert Live(sorted) == matches[..n];
      ok := TerminateDuplicates(matches, n, k);
      if ok {
        forall x | x in group && !IsTerminal(x.state)
          ensures keeper == Some(x) || Terminated(provider.calls, |old(provider.calls)|, x.id)
        {
          assert x in Live(sorted);
          var i :| 0 <= i < n && matches[i] == x;
        }
      }
    }

    // Recover or refresh the sandbox of its kept instance.
    method Track(id: string, keeper: Instance, ghost c: Choice) returns (ghost c': Choice)
      requires Valid() && Seen(KubeVirt, c) && keeper == Kept(KubeVirt, c) && keeper.sandboxId == id
      requires !Down(KubeVirt, keeper.state) && ReadWithin(c, clock.last, clock.last)
      modifies registry, clock
      ensures Valid() && c'.sorted == c.sorted
      ensures Tracked(KubeVirt, old(Now()), Now(), id, c', maxAge)
    {
      hide FanOutInv, Follows, IsExpired, KeeperIndex, NeedsUpdate, Recovered, Refresh, Observed;
      var rec := registry.Get(id);
      if rec.None? {
        ghost var statusAt, comparedAt, clampedAt, lease := Recover(registry, provider, clock, maxAge, keeper);
        c' := c.(statusAt := statusAt, comparedAt := comparedAt, clampedAt := clampedAt, lease := lease);
      } else {
        ghost var at := RefreshSandbox(id, rec.value, keeper);
        c' := c.(statusAt := at);
      }
    }

    // One turn of the first loop. It fails only when a duplicate could not be
    // terminated, before it has written anything.
    method ReconcileGroup(id: string, group: seq<Instance>) returns (ok: bool, seen: bool, ghost c: Choice)
      requires Valid() && (forall x :: x in group ==> x.sandboxId == id)
      modifies registry, provider, clock
      ensures Valid() && seen == Seen(KubeVirt, c)
      ensures GroupDone(KubeVirt, old(Now()), Now(), id, group, c, ok, maxAge)
    {
      hide FanOutInv, IsExpired, Answered, KeeperIndex, SortedFrom, GroupDone, Tracked;
      ghost var start := Now();
      ghost var sorted;
      var kept: Option<Instance>;
      ok, kept, sorted := ResolveDuplicates(group);
      c := Choice(sorted, clock.last, clock.last, clock.last, 0, true, true, clock.last);
      seen := kept.Some?;
      if kept.None? || !ok {
        GroupSkipped(KubeVirt, start, Now(), id, group, c, ok, maxAge);
        return;
      }
      var keeper := kept.value;
      KeptIsListed(KubeVirt, c, group);
      // A terminal keeper would be deleted here; Live has dropped all of them.
      assert !IsTerminal(keeper.state);
      ghost var resolved := Now();
      c := Track(id, keeper, c);
      GroupTracked(KubeVirt, start, resolved, Now(), id, group, c, maxAge);
    }

    // The first loop: every sandbox of the listing, in any order.
    method ReconcileListing(listing: seq<Instance>) returns (ok: bool, seen: set<string>, ghost cs: map<string, Choice>)
      requires Valid()
      modifies registry, provider, clock
      ensures Valid() && ListedSoFar(KubeVirt, old(Now()), Now(), listing, cs, seen, maxAge)
      ensures ok ==> forall x :: x in listing && x.sandboxId != "" ==> x.sandboxId in cs
    {
      hide FanOutInv, GroupDone, ListedSoFar, Seen;
      var bySandbox := GroupBySandbox(listing);
      var todo := bySandbox.Keys;
      seen, cs := {}, map[];
      ghost var start := Now();
      ListedNothing(KubeVirt, start, listing, maxAge);
      while todo != {}
        invariant Valid() && todo <= bySandbox.Keys && (forall id :: id in cs <==> id in bySandbox && id !in todo)
        invariant ListedSoFar(KubeVirt, start, Now(), listing, cs, seen, maxAge)
        decreases |todo|
      {
        var id :| id in todo;
        ghost var before := Now();
        var groupSeen;
        ghost var c;
        ok, groupSeen, c := ReconcileGroup(id, bySandbox[id]);
        ListedNext(KubeVirt, start, before, Now(), listing, cs, seen, id, c, ok, maxAge);
        if !ok { return; }
        if groupSeen { seen := seen + {id}; }
        cs := cs[id := c];
        todo := todo - {id};
      }
      ok := true;
    }

    // One turn of the absence loop on a bound sandbox the listing did not show.
    method CountMissing(rec: Record) returns (ghost ok: bool)
      requires Valid() && Lookup(registry.records, rec.sandboxId) == Some(rec) && rec.Bound()
      modifies registry, provider
      ensures Valid() && MissDone(KubeVirt, old(Now()), Now(), rec.sandboxId, false, ok)
      ensures registry.broadcasts == old(registry.broadcasts) +
              if rec.sandboxId in registry.records then [] else [DeletedEvent(rec.sandboxId)]
    {
      hide FanOutInv, IsExpired, MissDone, FullOf;
      ok := true;
      var id := rec.sandboxId;
      ghost var start := Now();
      var updated := registry.UpdateIf(id, SameGeneration(rec), CountMiss());
      assert updated == Some(Missed(rec));
      if updated.value.missingPolls < MISSING_POLL_THRESHOLD {
        MissKept(KubeVirt, start, Now(), id, true);
        return;
      }
      var confirmed := provider.Terminate(updated.value.instanceId);
      ok := confirmed;
      if !confirmed {
        MissKept(KubeVirt, start, Now(), id, false);
        return;
      }
      Release(updated.value);
      MissRemoved(KubeVirt, start, Now(), id);
    }

    // The guarded delete of a record whose cleanup was confirmed, announced.
    method Release(missed: Record)
      requires Valid() && Lookup(registry.records, missed.sandboxId) == Some(missed)
      requires missed.missingPolls >= MISSING_POLL_THRESHOLD
      modifies registry
      ensures Valid() && registry.records == old(registry.records) - {missed.sandboxId}
      ensures registry.broadcasts == old(registry.broadcasts) + [DeletedEvent(missed.sandboxId)]
      ensures Quietly(old(Now()), Now())
    {
      hide FanOutInv, FullOf;
      var removed := registry.DeleteIf(missed.sandboxId, RemoveAccepts(missed));
      assert removed.Some?;
      registry.Broadcast(DeletedEvent(missed.sandboxId));
    }

    // The absence loop over a snapshot of the registry.
    method CountAbsent(seen: set<string>) returns (ghost oks: map<string, bool>)
      requires Valid()
      modifies registry, provider
      ensures Valid() && CountedSoFar(KubeVirt, old(Now()), Now(), seen, oks) && old(registry.records).Keys <= oks.Keys
    {
      hide FanOutInv, MissDone, CountedSoFar;
      var all := registry.All();
      oks := map[];
      ghost var start := Now();
      CountedNothing(KubeVirt, start, seen);
      for i := 0 to |all|
        invariant Valid() && CountedSoFar(KubeVirt, start, Now(), seen, oks)
        invariant forall id :: id in oks <==> exists j :: 0 <= j < i && all[j].sandboxId == id
      {
        var rec := all[i];
        ghost var before, ok := Now(), true;
        assert rec in all && rec.sandboxId !in oks;
        NotCounted(KubeVirt, start, before, seen, oks, rec.sandboxId);
        if !rec.Bound() || rec.sandboxId in seen {
          MissSkipped(KubeVirt, before, rec.sandboxId, rec.sandboxId in seen);
        } else {
          ok := CountMissing(rec);
        }
        CountedNext(KubeVirt, start, before, Now(), seen, oks, rec.sandboxId, ok);
        oks := oks[rec.sandboxId := ok];
      }
      forall id | id in start.records ensures id in oks {
        assert start.records[id] in all;
      }
    }

    // Without a listing nothing moves. A duplicate that cannot be terminated
    // ends the poll after the sandboxes it had reached. Otherwise it is a
    // complete poll.
    method Poll(listing: Option<seq<Instance>>) returns (ok: bool, ghost cs: map<string, Choice>, ghost now: Time)
      requires Valid()
      modifies registry, provider, clock
      ensures Valid() && Follows(old(Now()), Now())
      ensures listing.None? ==> !ok && Now() == old(Now())
      ensures listing.Some? && !ok ==> AbortRel(KubeVirt, old(registry.records), registry.records, listing.value, cs, maxAge)
      ensures ok ==> listing.Some? && PollRan(KubeVirt, old(Now()), Now(), listing.value, cs, now, maxAge)
    {
      hide FanOutInv, ListedSoFar, CountedSoFar, ExpiredSoFar, AbortRel, PollRan, Follows;
      ghost var start := Now();
      FollowsSelf(start);
      ok, cs, now := false, map[], clock.last;
      if listing.None? { return; }
      var seen;
      ok, seen, cs := ReconcileListing(listing.value);
      ghost var listed := Now();
      AbortedAt(KubeVirt, start, listed, listing.value, cs, seen, maxAge);
      if !ok { return; }
      ghost var oks := CountAbsent(seen);
      ghost var counted := Now();
      ghost var es;
      var at;
      at, es := ExpireOld(KubeVirt, registry, provider, clock, maxAge, SameGeneration);
      now := at;
      assert ThreePhases(KubeVirt, start, listed, counted, Now(), listing.value, cs, seen, oks, es, now, maxAge);
      cs := PollDone(KubeVirt, start, listed, counted, Now(), listing.value, cs, seen, oks, es, now, maxAge);
      assert Follows(start, Now()) by { PollFollows(KubeVirt, start, Now(), listing.value, cs, now, maxAge); }
    }
  }
}
