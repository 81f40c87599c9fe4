// A client's picture of the fleet: the outbound view of every record, and how
// events move it.
module Replay {
  import opened Records
  import opened Registry

  type Picture = map<string, DriverSandbox>

  function Project(records: map<string, Record>): Picture {
    map id | id in records :: ToDriverSandbox(records[id])
  }

  // What a picture of these records shows, field by field: no lease, instance
  // id, state, age or miss counter, and no token, but the last status.
  ghost predicate Shows(p: Picture, records: map<string, Record>) {
    && p.Keys == records.Keys
    && forall id :: id in records ==>
         var s, r := p[id], records[id];
         && s.id == r.sandboxId && s.name == r.name && s.namespace == r.namespace && s.workspace == r.workspace
         && s.status == r.lastStatus
         && s.spec == if r.spec.None? then None else Some(Spec("", r.spec.value.rest))
  }

  // The projection is the only picture that does.
  lemma ProjectionShows(p: Picture, records: map<string, Record>)
    ensures Shows(p, records) <==> p == Project(records)
  {
    if Shows(p, records) {
      forall id | id in records ensures p[id] == Project(records)[id] {}
    }
  }

  function ApplyEvent(p: Picture, e: Event): Picture {
    match e
    case SandboxEvent(s) => p[s.id := s]
    case DeletedEvent(id) => p - {id}
  }

  function Replay(p: Picture, events: seq<Event>): Picture
    decreases |events|
  {
    if events == [] then p else ApplyEvent(Replay(p, events[..|events| - 1]), events[|events| - 1])
  }

  lemma ReplayOne(p: Picture, events: seq<Event>, e: Event)
    ensures Replay(p, events + [e]) == ApplyEvent(Replay(p, events), e)
  {
    assert (events + [e])[..|events|] == events;
  }

  lemma {:induction false} ReplayAppend(p: Picture, a: seq<Event>, b: seq<Event>)
    ensures Replay(p, a + b) == Replay(Replay(p, a), b)
    decreases |b|
  {
    if b == [] {
      assert a + b == a;
    } else {
      var init, last := b[..|b| - 1], b[|b| - 1];
      assert b == init + [last] && a + b == (a + init) + [last];
      ReplayOne(p, a + init, last);
      ReplayAppend(p, a, init);
      ReplayOne(Replay(p, a), init, last);
    }
  }

  // Events that explain a change of the records completely.
  ghost predicate Explains(events: seq<Event>, before: map<string, Record>, after: map<string, Record>) {
    Replay(Project(before), events) == Project(after)
  }

  lemma ExplainsNothing(records: map<string, Record>)
    ensures Explains([], records, records)
  {
  }

  lemma ExplainsWrite(events: seq<Event>, before: map<string, Record>, after: map<string, Record>, id: string, r: Record)
    requires Explains(events, before, after) && r.sandboxId == id
    ensures Explains(events + [SandboxEvent(ToDriverSandbox(r))], before, after[id := r])
  {
    ReplayOne(Project(before), events, SandboxEvent(ToDriverSandbox(r)));
  }

  lemma ExplainsTogether(
    a: seq<Event>, b: seq<Event>, r0: map<string, Record>, r1: map<string, Record>, r2: map<string, Record>)
    requires Explains(a, r0, r1) && Explains(b, r1, r2)
    ensures Explains(a + b, r0, r2)
  {
    ReplayAppend(Project(r0), a, b);
  }

  // A write the outbound view does not show needs no event.
  lemma ExplainsSilentWrite(events: seq<Event>, before: map<string, Record>, after: map<string, Record>, id: string, r: Record)
    requires Explains(events, before, after)
    requires id in after && ToDriverSandbox(after[id]) == ToDriverSandbox(r)
    ensures Explains(events, before, after[id := r])
  {
    assert Project(after[id := r]) == Project(after);
  }

  lemma ExplainsDelete(events: seq<Event>, before: map<string, Record>, after: map<string, Record>, id: string)
    requires Explains(events, before, after)
    ensures Explains(events + [DeletedEvent(id)], before, after - {id})
  {
    ReplayOne(Project(before), events, DeletedEvent(id));
  }

  // Registry contents and events of a sequence of polls with nothing in between.
  ghost predicate Explained(r: seq<map<string, Record>>, events: seq<seq<Event>>) {
    |r| == |events| + 1 && forall i :: 0 <= i < |events| ==> Explains(events[i], r[i], r[i + 1])
  }

  function Flatten(events: seq<seq<Event>>): seq<Event>
    decreases |events|
  {
    if events == [] then [] else Flatten(events[..|events| - 1]) + events[|events| - 1]
  }

  lemma {:induction false} PollsExplained(r: seq<map<string, Record>>, events: seq<seq<Event>>)
    requires Explained(r, events)
    ensures Explains(Flatten(events), r[0], r[|events|])
    decreases |events|
  {
    if events != [] {
      var n := |events| - 1;
      PollsExplained(r[..n + 1], events[..n]);
      ReplayAppend(Project(r[0]), Flatten(events[..n]), events[n]);
      assert Explains(events[n], r[n], r[n + 1]);
    }
  }

  // A watcher that is still connected and has drained its channel sees exactly
  // the registry when it replays what it received over its snapshot, if the
  // broadcasts since its subscription explain the change since.
  lemma DrainedWatcherAgrees(f: FanOut, ch: nat, before: map<string, Record>, after: map<string, Record>)
    requires FanOutInv(f) && ch in f.watchers && f.channels[ch].buffer == []
    requires Explains(f.broadcasts[f.since[ch]..], before, after)
    ensures Replay(Project(before), f.received[ch]) == Project(after)
  {
    WatcherSeesEverything(f, ch);
    assert f.received[ch] + [] == f.received[ch];
  }
}
