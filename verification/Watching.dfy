// The client's side of WatchSandboxes: a picture of the fleet made of the
// snapshot and the events read since.
module Watching {
  import opened Records
  import opened Registry
  import opened Replay
  import opened Polling

  // The fan-out and the records at one moment.
  datatype Feed = Feed(fan: FanOut, records: map<string, Record>)

  ghost function FeedOf(registry: Registry): Feed
    reads registry
  {
    Feed(registry.History(), registry.records)
  }

  // The client subscribed at `a`. At `b` the broadcasts since explain the
  // change since, the picture is the snapshot moved by what was read, and the
  // client is registered or was too slow.
  ghost predicate Reading(a: Feed, b: Feed, ch: nat, picture: Picture) {
    && FanOutInv(b.fan) && ch in b.fan.channels && Enrolled(a.fan, b.fan, ch)
    && a.fan.broadcasts <= b.fan.broadcasts && b.fan.since[ch] == |a.fan.broadcasts|
    && Explains(b.fan.broadcasts[|a.fan.broadcasts|..], a.records, b.records)
    && picture == Replay.Replay(Project(a.records), b.fan.received[ch])
  }

  ghost predicate Enrolled(a: FanOut, b: FanOut, ch: nat) {
    a.overflowed <= b.overflowed && ch !in a.overflowed && (ch in b.watchers || ch in b.overflowed)
  }

  function ReadersOf(f: FanOut): Readers {
    Readers(f.since, f.received, f.watchers, f.overflowed)
  }

  lemma StaysEnrolled(a: FanOut, b: FanOut, b': FanOut, ch: nat)
    requires Enrolled(a, b, ch) && ReadersStay(ReadersOf(b), ReadersOf(b'))
    ensures Enrolled(a, b', ch)
  {
  }

  lemma KeysOf(f: FanOut)
    requires FanOutInv(f)
    ensures f.since.Keys == f.channels.Keys == f.received.Keys
  {
  }

  lemma ExplainedOn(
    t0: seq<Event>, t1: seq<Event>, t2: seq<Event>, r0: map<string, Record>, r1: map<string, Record>, r2: map<string, Record>)
    requires t0 <= t1 <= t2 && Explains(t1[|t0|..], r0, r1) && Explains(t2[|t1|..], r1, r2)
    ensures t0 <= t2 && Explains(t2[|t0|..], r0, r2)
  {
    hide Explains;
    ExplainsTogether(t1[|t0|..], t2[|t1|..], r0, r1, r2);
    assert t2[|t0|..] == t1[|t0|..] + t2[|t1|..];
  }

  lemma ReadingFollows(a: Feed, b: Feed, b': Feed, m: Moment, m': Moment, ch: nat, picture: Picture)
    requires Reading(a, b, ch, picture) && FanOutInv(b'.fan) && Follows(m, m')
    requires m.told == b.fan.broadcasts && m.records == b.records
    requires m.readers == ReadersOf(b.fan)
    requires m'.told == b'.fan.broadcasts && m'.records == b'.records
    requires m'.readers == ReadersOf(b'.fan)
    ensures Reading(a, b', ch, picture)
  {
    KeysOf(b.fan);
    KeysOf(b'.fan);
    hide FanOutInv, Explains, Enrolled, Replay.Replay;
    StaysEnrolled(a.fan, b.fan, b'.fan, ch);
    ExplainedOn(a.fan.broadcasts, b.fan.broadcasts, b'.fan.broadcasts, a.records, b.records, b'.records);
  }

  lemma ReadingOne(a: Feed, b: Feed, b': Feed, ch: nat, picture: Picture, e: Event)
    requires Reading(a, b, ch, picture) && FanOutInv(b'.fan)
    requires b'.fan.channels.Keys == b.fan.channels.Keys && b'.fan.broadcasts == b.fan.broadcasts
    requires b'.fan.since == b.fan.since && b'.records == b.records
    requires b'.fan.watchers == b.fan.watchers && b'.fan.overflowed == b.fan.overflowed
    requires ch in b.fan.received && b'.fan.received == b.fan.received[ch := b.fan.received[ch] + [e]]
    ensures Reading(a, b', ch, ApplyEvent(picture, e))
  {
    ReplayOne(Project(a.records), b.fan.received[ch], e);
  }

  // A client that has read everything and is still registered agrees with the
  // registry.
  lemma ReadingAgrees(a: Feed, b: Feed, ch: nat, picture: Picture)
    requires Reading(a, b, ch, picture) && ch in b.fan.watchers && b.fan.channels[ch].buffer == []
    ensures picture == Project(b.records)
  {
    DrainedWatcherAgrees(b.fan, ch, a.records, b.records);
  }

  // Subscribe, and send the snapshot as one event for each record.
  method Open(registry: Registry) returns (ch: nat, picture: Picture)
    requires registry.Valid()
    modifies registry
    ensures registry.Valid() && registry.records == old(registry.records)
    ensures registry.overflowDisconnects == old(registry.overflowDisconnects)
    ensures Reading(FeedOf(registry), FeedOf(registry), ch, picture) && ch in registry.watchers
  {
    hide FanOutInv;
    var snapshot;
    ch, snapshot := registry.Subscribe();
    picture := SendSnapshot(registry.records, snapshot);
    NotOverflowed(registry.History(), ch);
    JustOpened(FeedOf(registry), ch, picture);
  }

  lemma NotOverflowed(f: FanOut, ch: nat)
    requires FanOutInv(f) && ch in f.watchers
    ensures ch !in f.overflowed
  {
  }

  lemma JustOpened(a: Feed, ch: nat, picture: Picture)
    requires FanOutInv(a.fan) && ch in a.fan.channels && ch in a.fan.since && a.fan.since[ch] == |a.fan.broadcasts|
    requires ch in a.fan.received && a.fan.received[ch] == [] && picture == Project(a.records)
    requires ch in a.fan.watchers && ch !in a.fan.overflowed
    ensures Reading(a, a, ch, picture)
  {
    hide FanOutInv;
    ExplainsNothing(a.records);
    assert a.fan.broadcasts[|a.fan.broadcasts|..] == [];
  }

  method SendSnapshot(records: map<string, Record>, snapshot: seq<Record>) returns (picture: Picture)
    requires Snapshots(records, snapshot, records.Keys) && forall id :: id in records ==> records[id].sandboxId == id
    ensures picture == Project(records)
  {
    hide Snapshots;
    picture := map[];
    for i := 0 to |snapshot|
      invariant forall id :: id in picture <==> exists j :: 0 <= j < i && snapshot[j].sandboxId == id
      invariant SentSoFar(picture, snapshot, i)
    {
      SendingNext(records, picture, snapshot, i);
      picture := ApplyEvent(picture, SandboxEvent(ToDriverSandbox(snapshot[i])));
    }
    SnapshotSent(records, snapshot, picture);
  }

  ghost predicate SentSoFar(picture: Picture, snapshot: seq<Record>, n: nat)
    requires n <= |snapshot|
  {
    forall j :: 0 <= j < n ==>
      snapshot[j].sandboxId in picture && picture[snapshot[j].sandboxId] == ToDriverSandbox(snapshot[j])
  }

  lemma SendingNext(records: map<string, Record>, picture: Picture, snapshot: seq<Record>, n: nat)
    requires Snapshots(records, snapshot, records.Keys) && n < |snapshot| && SentSoFar(picture, snapshot, n)
    ensures SentSoFar(picture[snapshot[n].sandboxId := ToDriverSandbox(snapshot[n])], snapshot, n + 1)
  {
  }

  lemma SnapshotSent(records: map<string, Record>, snapshot: seq<Record>, picture: Picture)
    requires Snapshots(records, snapshot, records.Keys) && forall id :: id in records ==> records[id].sandboxId == id
    requires forall id :: id in picture <==> exists j :: 0 <= j < |snapshot| && snapshot[j].sandboxId == id
    requires SentSoFar(picture, snapshot, |snapshot|)
    ensures picture == Project(records)
  {
    forall id | id in records ensures id in picture && picture[id] == ToDriverSandbox(records[id]) {
      assert records[id] in snapshot;
      var j :| 0 <= j < |snapshot| && snapshot[j] == records[id];
    }
    forall j | 0 <= j < |snapshot| ensures snapshot[j].sandboxId in records { assert snapshot[j] in snapshot; }
  }

  // Read up to so many events, as long as some wait.
  method Read(registry: Registry, ghost start: Feed, ch: nat, picture: Picture, limit: nat) returns (picture': Picture)
    requires registry.Valid() && Reading(start, FeedOf(registry), ch, picture)
    modifies registry`channels, registry`received
    ensures registry.Valid() && Reading(start, FeedOf(registry), ch, picture')
    ensures ch in registry.channels && (registry.channels[ch].buffer == [] || |registry.channels[ch].buffer| + limit == |old(registry.channels[ch].buffer)|)
  {
    picture' := picture;
    var n := 0;
    while n < limit && registry.channels[ch].buffer != []
      invariant n <= limit && registry.Valid() && Reading(start, FeedOf(registry), ch, picture')
      invariant ch in registry.channels && |registry.channels[ch].buffer| + n == |old(registry.channels[ch].buffer)|
    {
      hide FanOutInv;
      picture' := ReadOne(registry, start, ch, picture');
      n := n + 1;
    }
  }

  method ReadOne(registry: Registry, ghost start: Feed, ch: nat, picture: Picture) returns (picture': Picture)
    requires registry.Valid() && Reading(start, FeedOf(registry), ch, picture)
    requires ch in registry.channels && registry.channels[ch].buffer != []
    modifies registry`channels, registry`received
    ensures registry.Valid() && Reading(start, FeedOf(registry), ch, picture')
    ensures ch in registry.channels && |registry.channels[ch].buffer| + 1 == |old(registry.channels[ch].buffer)|
  {
    hide FanOutInv;
    ghost var before := FeedOf(registry);
    assert ch in before.fan.received by { ReadingReceives(start, before, ch, picture); }
    var event := registry.Receive(ch);
    picture' := ApplyEvent(picture, event.value);
    ReadingOne(start, before, FeedOf(registry), ch, picture, event.value);
  }

  lemma ReadingReceives(a: Feed, b: Feed, ch: nat, picture: Picture)
    requires Reading(a, b, ch, picture)
    ensures ch in b.fan.received
  {
  }

  lemma Disconnected(a: Feed, b: Feed, ch: nat, picture: Picture)
    requires Reading(a, b, ch, picture) && ch !in b.fan.watchers
    ensures |b.fan.overflowed| > |a.fan.overflowed|
  {
    var more := b.fan.overflowed - a.fan.overflowed;
    assert ch in more && b.fan.overflowed == a.fan.overflowed + more;
  }

  // Read all that waits, see whether the channel was closed, and unsubscribe.
  method Finish(registry: Registry, ghost start: Feed, ch: nat, picture: Picture) returns (connected: bool, picture': Picture)
    requires registry.Valid() && Reading(start, FeedOf(registry), ch, picture)
    modifies registry
    ensures registry.Valid() && registry.records == old(registry.records)
    ensures connected || registry.overflowDisconnects > |start.fan.overflowed|
    ensures connected ==> picture' == Project(registry.records)
  {
    hide FanOutInv;
    assert ch in registry.channels by { ReadingReceives(start, FeedOf(registry), ch, picture); }
    picture' := Read(registry, start, ch, picture, |registry.channels[ch].buffer|);
    connected := ch in registry.watchers;
    if !connected { Disconnected(start, FeedOf(registry), ch, picture'); }
    if connected { ReadingAgrees(start, FeedOf(registry), ch, picture'); }
    registry.RemoveWatcher(ch);
  }
}
