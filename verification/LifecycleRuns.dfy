// Two runs of the interleaved driver from the empty registry: a tombstone that
// a poll undoes, and a late rollback that takes another create's reservation.
module LifecycleRuns {
  import opened Records
  import opened Store
  import opened Fleet
  import opened Transitions
  import opened Reconcile
  import opened KubeWrites
  import opened Lifecycle

  // A run and where it has come to.
  datatype Trace = Trace(ws: seq<World>, acts: seq<Action>) {
    ghost predicate Runs(cap: nat, maxAge: int) { Run(ws, acts, cap, maxAge) }

    ghost function Last(): World
      requires ws != []
    {
      ws[|ws| - 1]
    }
  }

  ghost predicate Onward(t: Trace, t': Trace, cap: nat, maxAge: int) {
    t.ws != [] && t.ws <= t'.ws && t'.Runs(cap, maxAge)
  }

  lemma Beginning(cap: nat, maxAge: int) returns (t: Trace)
    ensures t.Runs(cap, maxAge) && t.ws == [FRESH]
  {
    t := Trace([FRESH], []);
  }

  lemma Next(t: Trace, a: Action, cap: nat, maxAge: int) returns (t': Trace)
    requires t.Runs(cap, maxAge) && t.ws != [] && Enabled(t.Last(), a)
    ensures Onward(t, t', cap, maxAge) && t'.ws == t.ws + [Step(t.Last(), a, cap, maxAge)]
  {
    hide Step, Enabled;
    t' := Trace(t.ws + [Step(t.Last(), a, cap, maxAge)], t.acts + [a]);
    forall i | 0 <= i < |t.acts| ensures Taken(t'.ws, t'.acts, cap, maxAge, i) { assert Taken(t.ws, t.acts, cap, maxAge, i); }
  }

  lemma Goes(t: Trace, tid: nat, e: Env, cap: nat, maxAge: int) returns (t': Trace)
    requires t.Runs(cap, maxAge) && t.ws != [] && tid in t.Last().threads
    ensures Onward(t, t', cap, maxAge)
    ensures
      var w := t.Last();
      var o := Move(w.ledger, w.hist, w.threads[tid], e, cap, maxAge);
      t'.Last() == World(o.ledger, o.hist, w.threads[tid := o.pc])
  {
    hide Run, Move;
    t' := Next(t, Go(tid, e), cap, maxAge);
  }

  lemma Begins(t: Trace, tid: nat, th: Thread, cap: nat, maxAge: int) returns (t': Trace)
    requires t.Runs(cap, maxAge) && t.ws != [] && tid !in t.Last().threads && Starts(th)
    ensures Onward(t, t', cap, maxAge)
    ensures t'.Last() == t.Last().(threads := t.Last().threads[tid := th])
  {
    hide Run;
    t' := Next(t, Begin(tid, th), cap, maxAge);
  }

  lemma CallsStart(id: string)
    ensures Starts(Listing(Fetch)) && Starts(Calling(MarkScan(id, ""))) && Starts(Calling(Find(Get, id, "")))
  {
  }

  const DULL: Env := Env(false, Instance("", "", "", "", "", "", 0), [], [], [], 0, 0, 0)

  // A create that may start, and the VM its launch returns.
  ghost predicate Sandboxed(rec: Record, vm: Instance) {
    && Starts(Creating(Reserve(rec))) && !rec.Bound() && rec.state == "launching" && rec.lease == 0 && rec.missingPolls == 0
    && vm.sandboxId == rec.sandboxId != "" && vm.id != "" && vm.state == "Running" && vm.createdAt != ZERO_TIME
  }

  // One thread takes a step that ends in this ledger, history and place.
  ghost predicate Moves(w: World, tid: nat, w': World, l: Ledger, h: History, th: Thread) {
    w' == World(l, h, w.threads[tid := th])
  }

  // ---- Steps both runs take ------------------------------------------------------

  lemma OneReserved(l: Ledger, h: History, rec: Record, cap: nat, maxAge: int)
    requires rec.sandboxId !in l.store.records && |l.store.records| < cap
    ensures Move(l, h, Creating(Reserve(rec)), DULL, cap, maxAge) ==
            Out(Apply(l, cap, OpReserve(rec)), h, Creating(Launch(rec.sandboxId, l.store.nextLease + 1, rec.createdAt)))
  {
    hide MoveCall, MoveListing, MoveSweep, Apply;
  }

  lemma Reserving(t: Trace, tid: nat, rec: Record, cap: nat, maxAge: int) returns (t': Trace)
    requires t.Runs(cap, maxAge) && t.ws != [] && tid !in t.Last().threads && Starts(Creating(Reserve(rec)))
    requires rec.sandboxId !in t.Last().ledger.store.records && |t.Last().ledger.store.records| < cap
    ensures Onward(t, t', cap, maxAge)
    ensures
      var w := t.Last();
      Moves(w, tid, t'.Last(), Apply(w.ledger, cap, OpReserve(rec)), w.hist,
            Creating(Launch(rec.sandboxId, w.ledger.store.nextLease + 1, rec.createdAt)))
  {
    hide Run, Apply, Starts, Move, Enabled, Step;
    OneReserved(t.Last().ledger, t.Last().hist, rec, cap, maxAge);
    t' := Begins(t, tid, Creating(Reserve(rec)), cap, maxAge);
    t' := Goes(t', tid, DULL, cap, maxAge);
  }

  lemma Launching(t: Trace, tid: nat, id: string, lease: nat, at: Time, vm: Instance, cap: nat, maxAge: int) returns (t': Trace)
    requires t.Runs(cap, maxAge) && t.ws != [] && tid in t.Last().threads
    requires t.Last().threads[tid] == Creating(Launch(id, lease, at))
    requires vm.id != "" && vm.state == "Running" && vm.createdAt != ZERO_TIME
    ensures Onward(t, t', cap, maxAge)
    ensures Moves(t.Last(), tid, t'.Last(), t.Last().ledger, t.Last().hist, Creating(Commit(id, lease, at, vm)))
  {
    t' := Next(t, Go(tid, DULL.(ok := true, vm := vm)), cap, maxAge);
    hide Run;
  }

  // ---- A tombstone undone ----------------------------------------------------------

  lemma OneFound(l: Ledger, h: History, r: Record, cap: nat, maxAge: int)
    requires l.store.records == map[r.sandboxId := r] && Redact(r) == r && !r.Bound() && r.sandboxId != ""
    ensures Move(l, h, Calling(MarkScan(r.sandboxId, "")), DULL.(order := [r.sandboxId]), cap, maxAge) ==
            Out(l, h, Calling(Mark(r.sandboxId, "", [r])))
  {
    var id, name := r.sandboxId, "";
    assert Enumerates([id], l.store.records.Keys);
    OneSelected(l.store.records, r,
                (x: Record) => !x.Bound() && (id != "" ==> x.sandboxId == id) && (name != "" ==> x.name == name));
  }

  lemma OneMarked(l: Ledger, h: History, r: Record, cap: nat, maxAge: int)
    requires l.store.records == map[r.sandboxId := r] && Redact(r) == r && !r.Bound() && r.state == "launching"
    ensures Move(l, h, Calling(Mark(r.sandboxId, "", [r])), DULL, cap, maxAge) ==
            Out(Update(l, cap, r.sandboxId, MarkAccepts(r), MarkChange(0)),
                h.(marked := h.marked + {r.lease}, tainted := h.tainted + {r.lease}), Calling(Over(Done)))
  {
    hide Update;
  }

  // A delete marks the only record there is.
  lemma Marking(t: Trace, tid: nat, r: Record, cap: nat, maxAge: int) returns (t': Trace)
    requires t.Runs(cap, maxAge) && t.ws != [] && tid !in t.Last().threads && r.sandboxId != ""
    requires t.Last().ledger.store.records == map[r.sandboxId := r] && Redact(r) == r
    requires !r.Bound() && r.state == "launching"
    ensures Onward(t, t', cap, maxAge)
    ensures
      var w := t.Last();
      Moves(w, tid, t'.Last(), Update(w.ledger, cap, r.sandboxId, MarkAccepts(r), MarkChange(0)),
            w.hist.(marked := w.hist.marked + {r.lease}, tainted := w.hist.tainted + {r.lease}), Calling(Over(Done)))
  {
    hide Run, Update, Move, Starts, Enabled, Step;
    CallsStart(r.sandboxId);
    OneFound(t.Last().ledger, t.Last().hist, r, cap, maxAge);
    OneMarked(t.Last().ledger, t.Last().hist, r, cap, maxAge);
    t' := Begins(t, tid, Calling(MarkScan(r.sandboxId, "")), cap, maxAge);
    t' := Goes(t', tid, DULL.(order := [r.sandboxId]), cap, maxAge);
    t' := Goes(t', tid, DULL, cap, maxAge);
  }

  lemma OneSelected(records: map<string, Record>, r: Record, keep: Record -> bool)
    requires records == map[r.sandboxId := r] && Redact(r) == r && keep(r)
    ensures Select(records, [r.sandboxId], keep) == [r]
  {
    assert [r.sandboxId][1..] == [];
  }

  lemma OneListed(vm: Instance)
    requires vm.sandboxId != "" && vm.state == "Running"
    ensures GroupIds([vm]) == {vm.sandboxId} && Group([vm], vm.sandboxId) == [vm]
    ensures Live([vm]) == [vm] && KeeperIndex([vm]) == 0
  {
    assert [vm][..0] == [];
  }

  lemma VmFetched(l: Ledger, h: History, vm: Instance, cap: nat, maxAge: int)
    requires vm.sandboxId != "" && vm.id != "" && vm.state == "Running"
    ensures Move(l, h, Listing(Fetch), DULL.(ok := true, listing := [vm], order := [vm.sandboxId]), cap, maxAge) ==
            Out(l, h, Listing(NextGroup(Groups([vm], [vm.sandboxId], {}))))
  {
    hide MoveCreate, MoveCall, MoveSweep, Group, Live, KeeperIndex;
    OneListed(vm);
    assert Enumerates([vm.sandboxId], GroupIds([vm]));
    hide GroupIds, Enumerates;
  }

  lemma VmGrouped(l: Ledger, h: History, vm: Instance, cap: nat, maxAge: int)
    requires vm.sandboxId != "" && vm.state == "Running"
    ensures Move(l, h, Listing(NextGroup(Groups([vm], [vm.sandboxId], {}))), DULL.(sorted := [vm]), cap, maxAge) ==
            Out(l, h, Listing(Duplicates(Groups([vm], [], {vm.sandboxId}), vm, [])))
  {
    hide Group, Live, KeeperIndex, MoveCreate, MoveCall, MoveSweep;
    OneListed(vm);
    assert [vm][..0] + [vm][1..] == [] && [vm.sandboxId][1..] == [] && {} + {vm.sandboxId} == {vm.sandboxId};
  }

  lemma VmAlone(l: Ledger, h: History, vm: Instance, g: Groups, cap: nat, maxAge: int)
    requires vm.state == "Running"
    ensures Move(l, h, Listing(Duplicates(g, vm, [])), DULL, cap, maxAge) == Out(l, h, Listing(Read(g, vm)))
  {
  }

  // A poll lists the VM and comes to the record of its sandbox.
  lemma Fetching(t: Trace, tid: nat, vm: Instance, cap: nat, maxAge: int) returns (t': Trace)
    requires t.Runs(cap, maxAge) && t.ws != [] && tid !in t.Last().threads
    requires vm.sandboxId != "" && vm.id != "" && vm.state == "Running"
    ensures Onward(t, t', cap, maxAge)
    ensures Moves(t.Last(), tid, t'.Last(), t.Last().ledger, t.Last().hist,
                  Listing(Read(Groups([vm], [], {vm.sandboxId}), vm)))
  {
    hide Run, Move, Starts, Enabled, Step;
    CallsStart(vm.sandboxId);
    var l, h := t.Last().ledger, t.Last().hist;
    VmFetched(l, h, vm, cap, maxAge);
    VmGrouped(l, h, vm, cap, maxAge);
    VmAlone(l, h, vm, Groups([vm], [], {vm.sandboxId}), cap, maxAge);
    t' := Begins(t, tid, Listing(Fetch), cap, maxAge);
    t' := Goes(t', tid, DULL.(ok := true, listing := [vm], order := [vm.sandboxId]), cap, maxAge);
    t' := Goes(t', tid, DULL.(sorted := [vm]), cap, maxAge);
    t' := Goes(t', tid, DULL, cap, maxAge);
  }

  // The poll finds a record that is not bound to the VM and binds it.
  lemma Refreshing(t: Trace, tid: nat, vm: Instance, r: Record, cap: nat, maxAge: int) returns (t': Trace)
    requires t.Runs(cap, maxAge) && t.ws != [] && tid !in t.Last().threads
    requires vm.sandboxId != "" && vm.id != "" && vm.state == "Running" && r.sandboxId == vm.sandboxId
    requires t.Last().ledger.store.records == map[r.sandboxId := r] && Redact(r) == r
    requires !r.Bound() && r.state == "delete-requested"
    ensures Onward(t, t', cap, maxAge)
    ensures
      var w := t.Last();
      Moves(w, tid, t'.Last(), Update(w.ledger, cap, r.sandboxId, RefreshAccepts(r), RefreshChange(vm, "Running", 0)),
            w.hist.(polled := w.hist.polled + {r.lease}), Listing(NextGroup(Groups([vm], [], {vm.sandboxId}))))
  {
    hide Run, Update;
    t' := Fetching(t, tid, vm, cap, maxAge);
    t' := Goes(t', tid, DULL, cap, maxAge);
    assert t'.Last().threads[tid] == Listing(Write(Groups([vm], [], {vm.sandboxId}), vm, r));
    t' := Goes(t', tid, DULL, cap, maxAge);
  }

  // ---- The only record there is ------------------------------------------------------

  ghost predicate Holds(w: World, r: Record) {
    w.ledger.store.records == map[r.sandboxId := r]
  }

  lemma FirstReserved(rec: Record, cap: nat)
    requires cap > 0 && !rec.Bound()
    ensures
      var l := Apply(EMPTY, cap, OpReserve(rec));
      && l.store == Store(map[rec.sandboxId := Redact(rec.(lease := 1))], 1) && l.retired == {}
  {
  }

  lemma Updated(l: Ledger, cap: nat, r: Record, accept: Record -> bool, change: Record -> Record)
    requires l.store.records == map[r.sandboxId := r] && Redact(r) == r && accept(r)
    ensures
      var l' := Update(l, cap, r.sandboxId, accept, change);
      && l'.store == l.store.(records := map[r.sandboxId := Redact(change(r))]) && l'.retired == l.retired
  {
  }

  // A first create has reserved and is about to launch.
  ghost predicate LaunchingAt(w: World, rec: Record) {
    && w.threads == map[0 := Creating(Launch(rec.sandboxId, 1, rec.createdAt))] && w.hist == START
    && Holds(w, Redact(rec.(lease := 1))) && w.ledger.store.nextLease == 1 && w.ledger.retired == {}
  }

  lemma FirstLaunch(rec: Record, vm: Instance, cap: nat, maxAge: int) returns (t: Trace)
    requires Sandboxed(rec, vm) && cap > 0
    ensures t.Runs(cap, maxAge) && t.ws != [] && LaunchingAt(t.Last(), rec)
  {
    FirstReserved(rec, cap);
    t := Beginning(cap, maxAge);
    hide Run, Apply, Update, Starts;
    t := Reserving(t, 0, rec, cap, maxAge);
  }

  // The commit of a create whose record does not refuse it.
  lemma Committing(t: Trace, tid: nat, r: Record, lease: nat, at: Time, vm: Instance, cap: nat, maxAge: int) returns (t': Trace)
    requires t.Runs(cap, maxAge) && t.ws != [] && tid in t.Last().threads
    requires t.Last().threads[tid] == Creating(Commit(r.sandboxId, lease, at, vm))
    requires Holds(t.Last(), r) && Redact(r) == r && r.lease == lease && !Refuses(r.state)
    ensures Onward(t, t', cap, maxAge) && Holds(t'.Last(), CommitChange(vm, at)(r))
    ensures t'.Last().threads == t.Last().threads[tid := Creating(Returned(r.sandboxId, lease, Committed(vm.id)))]
  {
    Updated(t.Last().ledger, cap, r, CommitAccepts(lease), CommitChange(vm, at));
    hide Run, Update;
    t' := Goes(t, tid, DULL, cap, maxAge);
  }

  // The create's record as the delete leaves it.
  function Tombstone(rec: Record): Record {
    Redact(MarkChange(0)(Redact(rec.(lease := 1))))
  }

  // A delete has marked the launch of thread 0, whose VM is about to be committed.
  ghost predicate MarkedAt(w: World, rec: Record, vm: Instance) {
    && w.threads == map[0 := Creating(Commit(rec.sandboxId, 1, rec.createdAt, vm)), 1 := Calling(Over(Done))]
    && Holds(w, Tombstone(rec))
    && 1 in w.hist.marked && 1 !in w.hist.polled && 1 !in w.hist.committed
  }

  lemma MarkedRun(rec: Record, vm: Instance, cap: nat, maxAge: int) returns (t: Trace)
    requires Sandboxed(rec, vm) && cap > 0
    ensures t.Runs(cap, maxAge) && t.ws != [] && MarkedAt(t.Last(), rec, vm)
  {
    var r1 := Redact(rec.(lease := 1));
    hide Run, Apply, Update, Starts;
    t := FirstLaunch(rec, vm, cap, maxAge);
    t := Launching(t, 0, rec.sandboxId, 1, rec.createdAt, vm, cap, maxAge);
    Updated(t.Last().ledger, cap, r1, MarkAccepts(r1), MarkChange(0));
    t := Marking(t, 1, r1, cap, maxAge);
  }

  lemma Revived(t: Trace, rec: Record, vm: Instance, cap: nat, maxAge: int) returns (t': Trace)
    requires Sandboxed(rec, vm) && t.Runs(cap, maxAge) && t.ws != [] && MarkedAt(t.Last(), rec, vm)
    ensures Onward(t, t', cap, maxAge)
    ensures 0 in t'.Last().threads && t'.Last().threads[0] == t.Last().threads[0]
    ensures Holds(t'.Last(), Redact(Refresh(Tombstone(rec), vm, "Running", 0)))
  {
    var r := Tombstone(rec);
    Updated(t.Last().ledger, cap, r, RefreshAccepts(r), RefreshChange(vm, "Running", 0));
    hide Run, Apply, Update, Starts;
    t' := Refreshing(t, 2, vm, r, cap, maxAge);
  }

  // A sandbox is reserved, its VM launched, and a delete marks it before the
  // commit. A poll sees the VM running and binds the record, and the create
  // commits and returns OK: the delete that was acknowledged has no effect.
  lemma TombstoneUndone(rec: Record, vm: Instance, cap: nat, maxAge: int) returns (t: Trace, m: nat)
    requires Sandboxed(rec, vm) && cap > 0
    ensures t.Runs(cap, maxAge) && m < |t.ws| && MarkedAt(t.ws[m], rec, vm)
    ensures 0 in t.Last().threads && t.Last().threads[0] == Creating(Returned(rec.sandboxId, 1, Committed(vm.id)))
    ensures rec.sandboxId in t.Last().ledger.store.records
    ensures t.Last().ledger.store.records[rec.sandboxId].instanceId == vm.id
    ensures t.Last().ledger.store.records[rec.sandboxId].state == "Running"
  {
    hide Run, Starts;
    t := MarkedRun(rec, vm, cap, maxAge);
    m := |t.ws| - 1;
    assert t.ws[m].threads[0] == Creating(Commit(rec.sandboxId, 1, rec.createdAt, vm));
    t := Revived(t, rec, vm, cap, maxAge);
    t := Committing(t, 0, Redact(Refresh(Tombstone(rec), vm, "Running", 0)), 1, rec.createdAt, vm, cap, maxAge);
  }

  // ---- A late rollback -------------------------------------------------------------------

  lemma VmResolved(l: Ledger, h: History, id: string, vm: Instance, cap: nat, maxAge: int)
    requires vm.sandboxId == id != "" && vm.id != "" && vm.state == "Running"
    ensures Move(l, h, Calling(List(Get, id, "")), DULL.(ok := true, listing := [vm]), cap, maxAge) ==
            Out(l, h, Calling(Insert(Get, RecordFromInstance(vm, 0))))
  {
    OneListed(vm);
    hide Live;
  }

  lemma NotFound(l: Ledger, h: History, r: Record, cap: nat, maxAge: int)
    requires l.store.records == map[r.sandboxId := r] && !r.Bound() && r.sandboxId != ""
    ensures Move(l, h, Calling(Find(Get, r.sandboxId, "")), DULL, cap, maxAge) == Out(l, h, Calling(List(Get, r.sandboxId, "")))
  {
    hide MoveCreate, MoveListing, MoveSweep;
  }

  lemma AlreadyThere(l: Ledger, h: History, x: Record, cap: nat, maxAge: int)
    requires x.sandboxId in l.store.records
    ensures Move(l, h, Calling(Insert(Get, x)), DULL, cap, maxAge) == Out(l, h, Calling(Adopt(Get, x)))
  {
    hide MoveCreate, MoveListing, MoveSweep;
  }

  lemma AdoptedOne(l: Ledger, h: History, r: Record, x: Record, cap: nat, maxAge: int)
    requires l.store.records == map[r.sandboxId := r] && Redact(r) == r && !r.Bound() && r.state == "launching"
    requires x.sandboxId == r.sandboxId && x.state == "Running"
    ensures Move(l, h, Calling(Adopt(Get, x)), DULL, cap, maxAge) ==
            Out(Update(l, cap, r.sandboxId, AdoptAccepts(), AdoptChange(x)), h, Calling(Over(Found(Redact(AdoptChange(x)(r))))))
  {
    hide MoveCreate, MoveListing, MoveSweep, Update;
  }

  // A GetSandbox finds no bound record, lists the VM and adopts it.
  lemma Adopting(t: Trace, tid: nat, r: Record, vm: Instance, cap: nat, maxAge: int) returns (t': Trace)
    requires t.Runs(cap, maxAge) && t.ws != [] && tid !in t.Last().threads
    requires Holds(t.Last(), r) && Redact(r) == r && !r.Bound() && r.state == "launching"
    requires vm.sandboxId == r.sandboxId != "" && vm.id != "" && vm.state == "Running"
    ensures Onward(t, t', cap, maxAge)
    ensures
      var w, x := t.Last(), RecordFromInstance(vm, 0);
      && Moves(w, tid, t'.Last(), Update(w.ledger, cap, r.sandboxId, AdoptAccepts(), AdoptChange(x)), w.hist,
               Calling(Over(Found(Redact(AdoptChange(x)(r))))))
      && Holds(t'.Last(), Redact(AdoptChange(x)(r)))
  {
    hide Run, Update, Move, Starts, Enabled, Step;
    CallsStart(r.sandboxId);
    var w, x := t.Last(), RecordFromInstance(vm, 0);
    NotFound(w.ledger, w.hist, r, cap, maxAge);
    VmResolved(w.ledger, w.hist, r.sandboxId, vm, cap, maxAge);
    AlreadyThere(w.ledger, w.hist, x, cap, maxAge);
    AdoptedOne(w.ledger, w.hist, r, x, cap, maxAge);
    Updated(w.ledger, cap, r, AdoptAccepts(), AdoptChange(x));
    t' := Begins(t, tid, Calling(Find(Get, r.sandboxId, "")), cap, maxAge);
    t' := Goes(t', tid, DULL, cap, maxAge);
    t' := Goes(t', tid, DULL.(ok := true, listing := [vm]), cap, maxAge);
    t' := Goes(t', tid, DULL, cap, maxAge);
    t' := Goes(t', tid, DULL, cap, maxAge);
  }

  const NOTHING_LISTED: Groups := Groups([], [], {})

  // A poll lists nothing and comes to the only record there is.
  lemma NothingListed(l: Ledger, h: History, cap: nat, maxAge: int)
    ensures Move(l, h, Listing(Fetch), DULL.(ok := true), cap, maxAge) == Out(l, h, Listing(NextGroup(NOTHING_LISTED)))
    ensures Move(l, h, Listing(NextGroup(NOTHING_LISTED)), DULL, cap, maxAge) == Out(l, h, Listing(Listed(NOTHING_LISTED)))
    ensures Move(l, h, Listing(Listed(NOTHING_LISTED)), DULL, cap, maxAge) == Out(l, h, Sweeping(Scan(NOTHING_LISTED)))
  {
    assert GroupIds([]) == {};
  }

  lemma OneScanned(l: Ledger, h: History, r: Record, cap: nat, maxAge: int)
    requires l.store.records == map[r.sandboxId := r] && Redact(r) == r && r.Bound()
    ensures Move(l, h, Sweeping(Scan(NOTHING_LISTED)), DULL.(order := [r.sandboxId]), cap, maxAge) == Out(l, h, Sweeping(Miss(NOTHING_LISTED, [r])))
  {
    assert Enumerates([r.sandboxId], l.store.records.Keys);
    var seen: set<string> := {};
    OneSelected(l.store.records, r, (x: Record) => x.Bound() && x.sandboxId !in seen);
  }

  lemma Absent(t: Trace, tid: nat, r: Record, cap: nat, maxAge: int) returns (t': Trace)
    requires t.Runs(cap, maxAge) && t.ws != [] && tid !in t.Last().threads
    requires Holds(t.Last(), r) && Redact(r) == r && r.Bound()
    ensures Onward(t, t', cap, maxAge)
    ensures Moves(t.Last(), tid, t'.Last(), t.Last().ledger, t.Last().hist, Sweeping(Miss(NOTHING_LISTED, [r])))
  {
    hide Run, Move, Starts, Enabled, Step;
    CallsStart(r.sandboxId);
    var l, h := t.Last().ledger, t.Last().hist;
    NothingListed(l, h, cap, maxAge);
    OneScanned(l, h, r, cap, maxAge);
    t' := Begins(t, tid, Listing(Fetch), cap, maxAge);
    t' := Goes(t', tid, DULL.(ok := true), cap, maxAge);
    t' := Goes(t', tid, DULL, cap, maxAge);
    t' := Goes(t', tid, DULL, cap, maxAge);
    t' := Goes(t', tid, DULL.(order := [r.sandboxId]), cap, maxAge);
  }

  // What does not change while polls count misses.
  ghost predicate SameLeases(w: World, w': World) {
    w'.ledger.store.nextLease == w.ledger.store.nextLease && w'.ledger.retired == w.ledger.retired
  }

  // A poll that misses the sandbox; from the third miss on it asks for a cleanup.
  lemma Missing(t: Trace, tid: nat, r: Record, cap: nat, maxAge: int) returns (t': Trace)
    requires t.Runs(cap, maxAge) && t.ws != [] && tid !in t.Last().threads
    requires Holds(t.Last(), r) && Redact(r) == r && r.Bound()
    ensures Onward(t, t', cap, maxAge) && SameLeases(t.Last(), t'.Last())
    ensures
      var missed := CountMiss()(r);
      && Holds(t'.Last(), missed)
      && t'.Last().threads == t.Last().threads[
           tid := Sweeping(if missed.missingPolls >= MISSING_POLL_THRESHOLD then Confirm(NOTHING_LISTED, [], missed) else Miss(NOTHING_LISTED, []))]
  {
    Updated(t.Last().ledger, cap, r, SameGeneration(r), CountMiss());
    hide Run, Update;
    t' := Absent(t, tid, r, cap, maxAge);
    assert [r][1..] == [];
    t' := Goes(t', tid, DULL, cap, maxAge);
  }

  lemma Released(l: Ledger, cap: nat, r: Record)
    requires l.store.records == map[r.sandboxId := r] && Redact(r) == r && r.missingPolls >= MISSING_POLL_THRESHOLD
    ensures
      var l' := Apply(l, cap, OpDelete(r.sandboxId, RemoveAccepts(r)));
      && l'.store == l.store.(records := map[]) && l'.retired == l.retired + {r.lease}
  {
  }

  // The cleanup is confirmed and the record released.
  lemma Releasing(t: Trace, tid: nat, r: Record, cap: nat, maxAge: int) returns (t': Trace)
    requires t.Runs(cap, maxAge) && t.ws != [] && tid in t.Last().threads
    requires t.Last().threads[tid] == Sweeping(Confirm(NOTHING_LISTED, [], r)) && Holds(t.Last(), r) && Redact(r) == r
    requires r.missingPolls >= MISSING_POLL_THRESHOLD
    ensures Onward(t, t', cap, maxAge)
    ensures t'.Last().threads == t.Last().threads[tid := Sweeping(Miss(NOTHING_LISTED, []))]
    ensures
      var l, l' := t.Last().ledger, t'.Last().ledger;
      && l'.store == l.store.(records := map[]) && l'.retired == l.retired + {r.lease}
  {
    Released(t.Last().ledger, cap, r);
    hide Run, Apply;
    t' := Goes(t, tid, DULL.(ok := true), cap, maxAge);
    assert t'.Last().threads[tid] == Sweeping(Remove(NOTHING_LISTED, [], r));
    t' := Goes(t', tid, DULL, cap, maxAge);
  }

  // A first create is still launching when its sandbox has been adopted, missed
  // by three polls, released and reserved again.
  ghost predicate OvertakenAt(w: World, rec: Record) {
    && 0 in w.threads && w.threads[0] == Creating(Launch(rec.sandboxId, 1, rec.createdAt))
    && Holds(w, Redact(rec.(lease := 2))) && 1 in w.ledger.retired
  }

  function AdoptedRecord(rec: Record, vm: Instance): Record {
    Redact(AdoptChange(RecordFromInstance(vm, 0))(Redact(rec.(lease := 1))))
  }

  // Three polls on, a cleanup is due.
  lemma MissedThrice(t: Trace, rec: Record, vm: Instance, cap: nat, maxAge: int) returns (t': Trace)
    requires Sandboxed(rec, vm) && t.Runs(cap, maxAge) && t.ws != [] && t.Last().threads.Keys == {0, 1}
    requires Holds(t.Last(), AdoptedRecord(rec, vm))
    ensures Onward(t, t', cap, maxAge) && SameLeases(t.Last(), t'.Last())
    ensures Holds(t'.Last(), AdoptedRecord(rec, vm).(missingPolls := 3))
    ensures t'.Last().threads.Keys == {0, 1, 2, 3, 4} && t'.Last().threads[0] == t.Last().threads[0]
    ensures t'.Last().threads[4] == Sweeping(Confirm(NOTHING_LISTED, [], AdoptedRecord(rec, vm).(missingPolls := 3)))
  {
    hide Run, Starts;
    var r := AdoptedRecord(rec, vm);
    t' := Missing(t, 2, r, cap, maxAge);
    t' := Missing(t', 3, r.(missingPolls := 1), cap, maxAge);
    t' := Missing(t', 4, r.(missingPolls := 2), cap, maxAge);
  }

  lemma SecondReserved(l: Ledger, rec: Record, cap: nat)
    requires cap > 0 && l.store == Store(map[], 1)
    ensures
      var l' := Apply(l, cap, OpReserve(rec));
      l'.store.records == map[rec.sandboxId := Redact(rec.(lease := 2))] && l'.retired == l.retired
  {
  }

  lemma Overtaken(rec: Record, vm: Instance, cap: nat, maxAge: int) returns (t: Trace)
    requires Sandboxed(rec, vm) && cap > 0
    ensures t.Runs(cap, maxAge) && t.ws != [] && OvertakenAt(t.Last(), rec)
  {
    assert AdoptedRecord(rec, vm).lease == 1;
    hide Run, Update, Apply, AdoptAccepts, AdoptChange;
    t := FirstLaunch(rec, vm, cap, maxAge);
    t := AdoptedFirst(t, rec, vm, cap, maxAge);
    t := MissedThrice(t, rec, vm, cap, maxAge);
    t := Releasing(t, 4, AdoptedRecord(rec, vm).(missingPolls := 3), cap, maxAge);
    SecondReserved(t.Last().ledger, rec, cap);
    t := ReservedAgain(t, rec, cap, maxAge);
  }

  lemma AdoptedFirst(t: Trace, rec: Record, vm: Instance, cap: nat, maxAge: int) returns (t': Trace)
    requires Sandboxed(rec, vm) && t.Runs(cap, maxAge) && t.ws != [] && LaunchingAt(t.Last(), rec)
    ensures Onward(t, t', cap, maxAge) && SameLeases(t.Last(), t'.Last())
    ensures t'.Last().threads == t.Last().threads[1 := Calling(Over(Found(AdoptedRecord(rec, vm))))]
    ensures Holds(t'.Last(), AdoptedRecord(rec, vm))
  {
    var r := Redact(rec.(lease := 1));
    Updated(t.Last().ledger, cap, r, AdoptAccepts(), AdoptChange(RecordFromInstance(vm, 0)));
    hide Run, Update, Starts;
    t' := Adopting(t, 1, r, vm, cap, maxAge);
  }

  lemma ReservedAgain(t: Trace, rec: Record, cap: nat, maxAge: int) returns (t': Trace)
    requires cap > 0 && t.Runs(cap, maxAge) && t.ws != [] && t.Last().threads.Keys == {0, 1, 2, 3, 4}
    requires t.Last().ledger.store == Store(map[], 1) && Starts(Creating(Reserve(rec)))
    ensures Onward(t, t', cap, maxAge)
    ensures t'.Last().ledger == Apply(t.Last().ledger, cap, OpReserve(rec)) && 0 in t'.Last().threads
    ensures t'.Last().threads[0] == t.Last().threads[0]
  {
    hide Run, Starts, Apply;
    t' := Reserving(t, 5, rec, cap, maxAge);
  }

  // The first create's launch then fails, and its rollback removes the second
  // create's reservation.
  lemma RollbackIsNotLeaseSafe(rec: Record, vm: Instance, cap: nat, maxAge: int) returns (t: Trace, n: nat)
    requires Sandboxed(rec, vm) && cap > 0
    ensures t.Runs(cap, maxAge) && n + 2 == |t.ws|
    ensures 0 in t.ws[n].threads && t.ws[n].threads[0] == Creating(Abandon(rec.sandboxId, 1, None))
    ensures rec.sandboxId in t.ws[n].ledger.store.records && t.ws[n].ledger.store.records[rec.sandboxId].lease == 2
    ensures rec.sandboxId !in t.ws[n + 1].ledger.store.records
  {
    hide Run, Starts;
    t := Overtaken(rec, vm, cap, maxAge);
    t := Goes(t, 0, DULL, cap, maxAge);
    n := |t.ws| - 1;
    t := Next(t, Go(0, DULL), cap, maxAge);
  }
}
