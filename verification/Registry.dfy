// The registry as the drivers use it: records under a lock, and a bounded
// fan-out of events that disconnects a slow watcher instead of dropping events.
module Registry {
  import opened Records
  import opened Store
  import Pure = Store

  datatype Event = SandboxEvent(sandbox: DriverSandbox) | DeletedEvent(id: string)

  const WATCH_BUFFER_SIZE: nat := 64

  // A buffered Go channel. Sending to it or closing it once closed panics.
  datatype Channel = Channel(buffer: seq<Event>, closed: bool)

  function Pushed(c: Channel, e: Event): Channel {
    if |c.buffer| < WATCH_BUFFER_SIZE then c.(buffer := c.buffer + [e]) else c.(closed := true)
  }

  // The fan-out with its history: all broadcasts in order, how many there were
  // before a channel's Subscribe, what its reader has taken, and which channels
  // an overflow closed.
  datatype FanOut = FanOut(
    channels: map<nat, Channel>, watchers: set<nat>, overflowed: set<nat>,
    broadcasts: seq<Event>, since: map<nat, nat>, received: map<nat, seq<Event>>)

  // What a channel has handed out and still holds is a run of broadcasts from
  // its Subscribe on, without gaps: up to the last one while it is registered,
  // up to where it overflowed or was removed once it is closed.
  ghost predicate ChannelInv(c: Channel, registered: bool, since: nat, received: seq<Event>, broadcasts: seq<Event>) {
    var seen := received + c.buffer;
    && |c.buffer| <= WATCH_BUFFER_SIZE
    && since + |seen| <= |broadcasts|
    && seen == broadcasts[since..since + |seen|]
    && (registered ==> !c.closed && since + |seen| == |broadcasts|)
    && (!registered ==> c.closed)
  }

  ghost predicate FanOutInv(f: FanOut) {
    && f.since.Keys == f.channels.Keys && f.received.Keys == f.channels.Keys
    && f.watchers <= f.channels.Keys
    && f.overflowed <= f.channels.Keys - f.watchers
    && (forall ch :: ch in f.channels ==>
          ChannelInv(f.channels[ch], ch in f.watchers, f.since[ch], f.received[ch], f.broadcasts))
  }

  function FullOf(f: FanOut): set<nat> {
    set ch | ch in f.watchers && ch in f.channels && |f.channels[ch].buffer| >= WATCH_BUFFER_SIZE
  }

  lemma ChannelAfterBroadcast(c: Channel, registered: bool, since: nat, received: seq<Event>, broadcasts: seq<Event>, e: Event)
    requires ChannelInv(c, registered, since, received, broadcasts)
    ensures registered ==>
              ChannelInv(Pushed(c, e), |c.buffer| < WATCH_BUFFER_SIZE, since, received, broadcasts + [e])
    ensures !registered ==> ChannelInv(c, false, since, received, broadcasts + [e])
  {
    var seen := received + c.buffer;
    assert received + (c.buffer + [e]) == seen + [e];
    assert (broadcasts + [e])[since..since + |seen|] == broadcasts[since..since + |seen|];
    if since + |seen| == |broadcasts| {
      assert (broadcasts + [e])[since..since + |seen| + 1] == broadcasts[since..] + [e];
    }
  }

  lemma BroadcastKeepsFanOut(f: FanOut, f': FanOut, e: Event)
    requires FanOutInv(f)
    requires f'.channels.Keys == f.channels.Keys
    requires forall ch :: ch in f.channels ==>
               f'.channels[ch] == if ch in f.watchers then Pushed(f.channels[ch], e) else f.channels[ch]
    requires f'.watchers == f.watchers - FullOf(f) && f'.overflowed == f.overflowed + FullOf(f)
    requires f'.broadcasts == f.broadcasts + [e] && f'.since == f.since && f'.received == f.received
    ensures FanOutInv(f')
    ensures |f'.overflowed| == |f.overflowed| + |FullOf(f)|
  {
    assert f.overflowed !! FullOf(f);
    forall ch | ch in f'.channels
      ensures ChannelInv(f'.channels[ch], ch in f'.watchers, f'.since[ch], f'.received[ch], f'.broadcasts)
    {
      ChannelAfterBroadcast(f.channels[ch], ch in f.watchers, f.since[ch], f.received[ch], f.broadcasts, e);
    }
  }

  lemma SubscribeKeepsFanOut(f: FanOut, ch: nat)
    requires FanOutInv(f) && ch !in f.channels
    ensures FanOutInv(f.(channels := f.channels[ch := Channel([], false)], watchers := f.watchers + {ch},
                         since := f.since[ch := |f.broadcasts|], received := f.received[ch := []]))
  {
  }

  lemma RemoveKeepsFanOut(f: FanOut, ch: nat)
    requires FanOutInv(f) && ch in f.watchers
    ensures ch in f.channels && !f.channels[ch].closed
    ensures FanOutInv(f.(channels := f.channels[ch := f.channels[ch].(closed := true)], watchers := f.watchers - {ch}))
  {
  }

  lemma ReceiveKeepsFanOut(f: FanOut, ch: nat)
    requires FanOutInv(f) && ch in f.channels && f.channels[ch].buffer != []
    ensures ch in f.received
    ensures
      var c := f.channels[ch];
      FanOutInv(f.(channels := f.channels[ch := c.(buffer := c.buffer[1..])],
                   received := f.received[ch := f.received[ch] + [c.buffer[0]]]))
  {
    var c := f.channels[ch];
    assert f.received[ch] + [c.buffer[0]] + c.buffer[1..] == f.received[ch] + c.buffer;
  }

  // A registered watcher has received or buffered every broadcast since its
  // Subscribe, in order, with at most a buffer's worth waiting; a disconnected
  // one a prefix of them.
  lemma WatcherSeesEverything(f: FanOut, ch: nat)
    requires FanOutInv(f) && ch in f.channels
    ensures f.since[ch] <= |f.broadcasts| && |f.channels[ch].buffer| <= 64
    ensures ch in f.watchers ==> f.received[ch] + f.channels[ch].buffer == f.broadcasts[f.since[ch]..]
    ensures ch !in f.watchers ==> f.channels[ch].closed && f.received[ch] + f.channels[ch].buffer <= f.broadcasts[f.since[ch]..]
  {
    assert ChannelInv(f.channels[ch], ch in f.watchers, f.since[ch], f.received[ch], f.broadcasts);
    var seen := f.received[ch] + f.channels[ch].buffer;
    assert f.broadcasts[f.since[ch]..f.since[ch] + |seen|] == f.broadcasts[f.since[ch]..][..|seen|];
  }

  lemma OpenWatchers(f: FanOut)
    requires FanOutInv(f)
    ensures f.watchers <= f.channels.Keys && f.overflowed <= f.channels.Keys - f.watchers
    ensures forall ch :: ch in f.watchers ==> !f.channels[ch].closed
  {
  }

  // A snapshot of some of the records in any order: every one of them once.
  ghost predicate Snapshots(records: map<string, Record>, out: seq<Record>, of: set<string>) {
    && (forall r :: r in out ==> r.sandboxId in of && r.sandboxId in records && records[r.sandboxId] == r)
    && (forall id :: id in of && id in records ==> records[id] in out)
    && (forall i, j :: 0 <= i < j < |out| ==> out[i].sandboxId != out[j].sandboxId)
  }

  lemma NoSnapshot(records: map<string, Record>)
    ensures Snapshots(records, [], {})
  {
  }

  lemma SnapshotNext(records: map<string, Record>, out: seq<Record>, of: set<string>, id: string)
    requires Snapshots(records, out, of) && id !in of
    requires id in records && records[id].sandboxId == id && Redacted(records[id])
    ensures Snapshots(records, out + [Redact(records[id])], of + {id})
  {
    assert Redact(records[id]) == records[id];
    forall i | 0 <= i < |out| ensures out[i].sandboxId != id { assert out[i] in out; }
  }

  lemma ExpiredInWords(r: Record, now: Time, maxAge: int)
    ensures maxAge < 0x7FFF_FFFF_FFFF_FFFF ==>
              (IsExpired(r, now, maxAge) <==>
               r.createdAt != 0 && r.state != "terminated" && now - r.createdAt > if maxAge > 0 then maxAge else 28_800_000_000_000)
  {
  }

  // A spec as it may be kept and shown.
  function WithoutToken(spec: Option<Spec>): Option<Spec> {
    if spec.None? then None else Some(Spec("", spec.value.rest))
  }

  class Registry {
    const maxInstances: int
    const maxAge: int
    var records: map<string, Record>
    var nextLease: nat
    var channels: map<nat, Channel>   // every channel made, by identity
    var nextChannel: nat
    var watchers: set<nat>
    var overflowDisconnects: nat

    ghost var broadcasts: seq<Event>            // all of them, in order
    ghost var since: map<nat, nat>              // broadcasts before a channel's Subscribe
    ghost var received: map<nat, seq<Event>>    // what a channel's reader has taken
    ghost var overflowed: set<nat>              // channels closed by an overflow

    function State(): Store
      reads `records, `nextLease
    {
      Store(records, nextLease)
    }

    ghost predicate RecordsValid()
      reads `records
    {
      forall id :: id in records ==> records[id].sandboxId == id && Redacted(records[id])
    }

    ghost predicate FanOutValid()
      reads `channels, `nextChannel, `watchers, `overflowDisconnects, `broadcasts, `since, `received, `overflowed
    {
      && FanOutInv(History())
      && overflowDisconnects == |overflowed|
      && (forall ch :: ch in channels ==> ch < nextChannel)
    }

    ghost predicate Valid()
      reads this
    {
      RecordsValid() && FanOutValid()
    }

    constructor (maxInstances: int, maxAge: int)
      ensures Valid() && records == map[] && nextLease == 0 && watchers == {} && broadcasts == []
      ensures this.maxInstances == maxInstances && this.maxAge == maxAge && overflowDisconnects == 0
    {
      this.maxInstances, this.maxAge := maxInstances, maxAge;
      records, nextLease, channels, nextChannel, watchers, overflowDisconnects := map[], 0, map[], 0, {}, 0;
      broadcasts, since, received, overflowed := [], map[], map[], {};
    }

    // ---- Records -------------------------------------------------------------

    method ReserveWithLease(rec: Record) returns (res: ReserveResult)
      requires Valid()
      modifies this`records, this`nextLease
      ensures Valid()
      ensures (State(), res) == Pure.ReserveWithLease(old(State()), EffectiveMaxInstances(maxInstances), rec)
      ensures res == ErrExists <==> rec.sandboxId in old(records)
      ensures res == ErrCapacity <==>
              rec.sandboxId !in old(records) && |old(records)| >= if maxInstances > 0 then maxInstances else 10
      ensures !res.Reserved? ==> records == old(records) && nextLease == old(nextLease)
      ensures res.Reserved? ==> res.lease == nextLease == old(nextLease) + 1
      ensures res.Reserved? ==>
                records == old(records)[rec.sandboxId := rec.(lease := nextLease, spec := WithoutToken(rec.spec))]
    {
      if rec.sandboxId in records { return ErrExists; }
      if |records| >= EffectiveMaxInstances(maxInstances) { return ErrCapacity; }
      nextLease := nextLease + 1;
      records := records[rec.sandboxId := Redact(rec.(lease := nextLease))];
      return Reserved(nextLease);
    }

    method Add(rec: Record) returns (ok: bool)
      requires Valid()
      modifies this`records, this`nextLease
      ensures Valid()
      ensures (State(), ok) == Pure.Add(old(State()), rec)
      ensures ok <==> rec.sandboxId !in old(records)
      ensures nextLease == if ok && rec.lease == 0 then old(nextLease) + 1 else old(nextLease)
      ensures records == if !ok then old(records)
              else old(records)[rec.sandboxId := rec.(lease := if rec.lease == 0 then nextLease else rec.lease, spec := WithoutToken(rec.spec))]
    {
      if rec.sandboxId in records { return false; }
      var stored := rec;
      if stored.lease == 0 {
        nextLease := nextLease + 1;
        stored := stored.(lease := nextLease);
      }
      records := records[rec.sandboxId := Redact(stored)];
      return true;
    }

    method Get(id: string) returns (rec: Option<Record>)
      requires Valid()
      ensures rec == Lookup(records, id)
    {
      if id !in records { return None; }
      return Some(Redact(records[id]));
    }

    method Delete(id: string) returns (rec: Option<Record>)
      requires Valid()
      modifies this`records
      ensures Valid()
      ensures rec == old(Lookup(records, id)) && records == old(records) - {id}
    {
      if id !in records { return None; }
      rec := Some(Redact(records[id]));
      records := records - {id};
    }

    method Rollback(id: string)
      requires Valid()
      modifies this`records
      ensures Valid()
      ensures State() == Pure.Rollback(old(State()), id)
      ensures nextLease == old(nextLease)
      ensures records == if id in old(records) && old(records)[id].instanceId == "" then old(records) - {id} else old(records)
    {
      if id in records && !records[id].Bound() { records := records - {id}; }
    }

    method UpdateIf(id: string, accept: Record -> bool, change: Record -> Record) returns (rec: Option<Record>)
      requires Valid() && KeepsIdentity(change)
      modifies this`records
      ensures Valid()
      ensures (State(), rec) == Pure.UpdateIf(old(State()), id, accept, change)
      ensures nextLease == old(nextLease)
      ensures if id in old(records) && accept(old(records)[id])
              then rec == Some(change(old(records)[id]).(spec := WithoutToken(change(old(records)[id]).spec)))
                   && records == old(records)[id := rec.value]
              else rec == None && records == old(records)
    {
      if id !in records || !accept(Redact(records[id])) { return None; }
      var updated := Redact(change(records[id]));
      records := records[id := updated];
      return Some(updated);
    }

    method DeleteIf(id: string, accept: Record -> bool) returns (rec: Option<Record>)
      requires Valid()
      modifies this`records
      ensures Valid()
      ensures (State(), rec) == Pure.DeleteIf(old(State()), id, accept)
      ensures nextLease == old(nextLease)
      ensures if id in old(records) && accept(old(records)[id])
              then rec == Some(old(records)[id]) && records == old(records) - {id}
              else rec == None && records == old(records)
    {
      if id !in records || !accept(Redact(records[id])) { return None; }
      rec := Some(Redact(records[id]));
      records := records - {id};
    }

    ghost predicate IsSnapshot(out: seq<Record>, of: set<string>)
      reads `records
    {
      Snapshots(records, out, of)
    }

    method All() returns (out: seq<Record>)
      requires Valid()
      ensures IsSnapshot(out, records.Keys)
    {
      hide Snapshots;
      out := [];
      var todo := records.Keys;
      NoSnapshot(records);
      assert todo - todo == {};
      while todo != {}
        invariant todo <= records.Keys
        invariant IsSnapshot(out, records.Keys - todo)
        decreases |todo|
      {
        var id :| id in todo;
        SnapshotNext(records, out, records.Keys - todo, id);
        assert records.Keys - (todo - {id}) == records.Keys - todo + {id};
        out := out + [Redact(records[id])];
        todo := todo - {id};
      }
      assert records.Keys - todo == records.Keys;
    }

    method Expired(now: Time) returns (out: seq<Record>)
      requires Valid()
      ensures IsSnapshot(out, ExpiredIds(now))
      ensures maxAge < 0x7FFF_FFFF_FFFF_FFFF ==> forall id :: id in records ==>
                (id in ExpiredIds(now) <==>
                 records[id].createdAt != 0 && records[id].state != "terminated"
                 && now - records[id].createdAt > if maxAge > 0 then maxAge else 28_800_000_000_000)
    {
      hide Snapshots, IsExpired;
      forall id | id in records { ExpiredInWords(records[id], now, maxAge); }
      out := [];
      var todo := records.Keys;
      NoSnapshot(records);
      assert ExpiredIds(now) - todo == {};
      while todo != {}
        invariant todo <= records.Keys
        invariant IsSnapshot(out, ExpiredIds(now) - todo)
        decreases |todo|
      {
        var id :| id in todo;
        if IsExpired(records[id], now, maxAge) {
          SnapshotNext(records, out, ExpiredIds(now) - todo, id);
          out := out + [Redact(records[id])];
          assert ExpiredIds(now) - (todo - {id}) == ExpiredIds(now) - todo + {id};
        } else {
          assert ExpiredIds(now) - (todo - {id}) == ExpiredIds(now) - todo;
        }
        todo := todo - {id};
      }
      assert ExpiredIds(now) - todo == ExpiredIds(now);
    }

    function ExpiredIds(now: Time): set<string>
      reads this
    {
      set id | id in records && IsExpired(records[id], now, maxAge)
    }

    // ---- Watchers ------------------------------------------------------------

    // Registers a watcher and takes the snapshot in one step.
    method Subscribe() returns (ch: nat, snapshot: seq<Record>)
      requires Valid()
      modifies this`channels, this`nextChannel, this`watchers, this`since, this`received
      ensures Valid()
      ensures ch !in old(channels) && channels == old(channels)[ch := Channel([], false)]
      ensures watchers == old(watchers) + {ch}
      ensures since == old(since)[ch := |broadcasts|] && received == old(received)[ch := []]
      ensures IsSnapshot(snapshot, records.Keys)
    {
      hide FanOutInv;
      snapshot := All();
      ghost var before := History();
      ch, nextChannel := nextChannel, nextChannel + 1;
      channels := channels[ch := Channel([], false)];
      watchers := watchers + {ch};
      since, received := since[ch := |broadcasts|], received[ch := []];
      SubscribeKeepsFanOut(before, ch);
    }

    // Closes a registered channel; does nothing for one already disconnected.
    method RemoveWatcher(ch: nat)
      requires Valid()
      modifies this`channels, this`watchers
      ensures Valid()
      ensures watchers == old(watchers) - {ch}
      ensures channels == if ch in old(watchers) then old(channels)[ch := old(channels)[ch].(closed := true)] else old(channels)
    {
      hide FanOutInv;
      if ch in watchers {
        RemoveKeepsFanOut(History(), ch);
        watchers := watchers - {ch};
        channels := channels[ch := channels[ch].(closed := true)];
      }
    }

    // The reader's side: the next event, or None when the channel is closed
    // and drained. A reader of an open empty channel waits.
    method Receive(ch: nat) returns (event: Option<Event>)
      requires Valid() && ch in channels && (channels[ch].buffer != [] || channels[ch].closed)
      modifies this`channels, this`received
      ensures Valid()
      ensures event.None? <==> old(channels[ch].buffer) == []
      ensures event.None? ==> channels == old(channels) && received == old(received)
      ensures event.Some? ==>
                && event.value == old(channels[ch].buffer[0])
                && received == old(received)[ch := old(received[ch]) + [event.value]]
                && channels == old(channels)[ch := old(channels[ch]).(buffer := old(channels[ch].buffer)[1..])]
    {
      hide FanOutInv;
      var c := channels[ch];
      if c.buffer == [] { return None; }
      ReceiveKeepsFanOut(History(), ch);
      event := Some(c.buffer[0]);
      channels := channels[ch := c.(buffer := c.buffer[1..])];
      received := received[ch := received[ch] + [c.buffer[0]]];
    }

    ghost function History(): FanOut
      reads `channels, `watchers, `broadcasts, `since, `received, `overflowed
    {
      FanOut(channels, watchers, overflowed, broadcasts, since, received)
    }

    // One select: send without blocking, or disconnect the slow watcher. A
    // registered channel is open, so neither the send nor the close panics.
    method Send(ch: nat, e: Event)
      requires ch in watchers && ch in channels && !channels[ch].closed && ch !in overflowed
      requires overflowDisconnects == |overflowed|
      modifies this`channels, this`watchers, this`overflowDisconnects, this`overflowed
      ensures channels == old(channels)[ch := Pushed(old(channels)[ch], e)]
      ensures |old(channels)[ch].buffer| < WATCH_BUFFER_SIZE ==> watchers == old(watchers) && overflowed == old(overflowed)
      ensures |old(channels)[ch].buffer| >= WATCH_BUFFER_SIZE ==>
                watchers == old(watchers) - {ch} && overflowed == old(overflowed) + {ch}
      ensures overflowDisconnects == |overflowed|
    {
      if |channels[ch].buffer| < WATCH_BUFFER_SIZE {
        channels := channels[ch := channels[ch].(buffer := channels[ch].buffer + [e])];
      } else {
        overflowDisconnects := overflowDisconnects + 1;
        overflowed := overflowed + {ch};
        channels := channels[ch := channels[ch].(closed := true)];
        watchers := watchers - {ch};
      }
    }

    method Deliver(e: Event)
      requires watchers <= channels.Keys && overflowed !! watchers && overflowDisconnects == |overflowed|
      requires forall ch :: ch in watchers ==> !channels[ch].closed
      modifies this`channels, this`watchers, this`overflowDisconnects, this`overflowed
      ensures watchers == old(watchers) - FullOf(old(History()))
      ensures channels.Keys == old(channels).Keys
      ensures forall ch :: ch in channels ==>
                channels[ch] == if ch in old(watchers) then Pushed(old(channels)[ch], e) else old(channels)[ch]
      ensures overflowed == old(overflowed) + FullOf(old(History())) && overflowDisconnects == |overflowed|
    {
      var todo := watchers;
      ghost var full, before, registered, disconnected := FullOf(History()), channels, watchers, overflowed;
      while todo != {}
        invariant todo <= registered
        invariant forall ch :: ch in watchers <==> ch in registered && (ch in todo || ch !in full)
        invariant channels.Keys == before.Keys
        invariant forall ch :: ch in before ==>
                    channels[ch] == if ch in registered && ch !in todo then Pushed(before[ch], e) else before[ch]
        invariant forall ch :: ch in overflowed <==> ch in disconnected || (ch in full && ch !in todo)
        invariant overflowDisconnects == |overflowed|
        decreases |todo|
      {
        var ch :| ch in todo;
        assert ch in full <==> |channels[ch].buffer| >= WATCH_BUFFER_SIZE;
        Send(ch, e);
        todo := todo - {ch};
      }
    }

    // Every registered watcher gets the event or, its buffer full, is closed,
    // removed and counted.
    method Broadcast(e: Event)
      requires Valid()
      modifies this`channels, this`watchers, this`overflowDisconnects, this`broadcasts, this`overflowed
      ensures Valid()
      ensures broadcasts == old(broadcasts) + [e]
      ensures watchers == old(watchers) - FullOf(old(History()))
      ensures channels.Keys == old(channels).Keys
      ensures forall ch :: ch in channels ==>
                channels[ch] == if ch in old(watchers) then Pushed(old(channels)[ch], e) else old(channels)[ch]
      ensures forall ch :: ch in old(watchers) && ch in old(channels) ==>
                if |old(channels)[ch].buffer| < 64
                then ch in watchers && channels[ch].buffer == old(channels)[ch].buffer + [e] && !channels[ch].closed
                else ch !in watchers && channels[ch].buffer == old(channels)[ch].buffer && channels[ch].closed
      ensures overflowed == old(overflowed) + FullOf(old(History()))
      ensures overflowDisconnects == old(overflowDisconnects) + |FullOf(old(History()))|
    {
      hide FanOutInv;
      ghost var before := History();
      OpenWatchers(before);
      Deliver(e);
      broadcasts := broadcasts + [e];
      BroadcastKeepsFanOut(before, History(), e);
    }
  }
}
