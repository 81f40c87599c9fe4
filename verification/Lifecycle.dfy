// The KubeVirt driver as threads that interleave at the registry's atomic
// methods and at provider calls. The provider and the clock are adversaries:
// every move takes their answers from an Env.
module Lifecycle {
  import opened Records
  import opened Store
  import opened Fleet
  import opened Transitions
  import opened Reconcile
  import opened KubeWrites

  datatype Outcome =
    | Committed(instanceId: string)
    | Failed(launched: Option<string>)   // the VM Launch had returned, if any

  // One constructor per place where another thread may run in between.

  datatype CreatePc =
    | Reserve(rec: Record)
    | Launch(id: string, lease: nat, createdAt: Time)
    | Commit(id: string, lease: nat, createdAt: Time, vm: Instance)
    | Compensate(id: string, lease: nat, instanceId: string)
    | Abandon(id: string, lease: nat, launched: Option<string>)
    | Returned(id: string, lease: nat, outcome: Outcome)
    | Refused

  datatype Intent = Get | Stop | Delete

  // What a call returns. A delete of something not found is not an error; it
  // returns that nothing was deleted.
  datatype Reply =
    | Found(rec: Record)
    | Done
    | NotFound
    | Erred

  // GetSandbox, StopSandbox and DeleteSandbox: a delete first tries to
  // tombstone a launch; all of them resolve, then act on what they resolved.
  datatype CallPc =
    | MarkScan(id: string, name: string)
    | Mark(id: string, name: string, todo: seq<Record>)
    | Find(intent: Intent, id: string, name: string)
    | List(intent: Intent, id: string, name: string)
    | Insert(intent: Intent, rec: Record)
    | Adopt(intent: Intent, rec: Record)
    | FindAgain(intent: Intent, rec: Record)
    | Act(intent: Intent, rec: Record)
    | Note(intent: Intent, rec: Record)
    | Over(reply: Reply)

  // What poll has listed, what its first loop has still to visit and what it
  // has seen.
  datatype Groups = Groups(listing: seq<Instance>, todo: seq<string>, seen: set<string>)

  datatype ListingPc =
    | Fetch
    | NextGroup(g: Groups)
    | Duplicates(g: Groups, keeper: Instance, names: seq<string>)
    | Terminal(g: Groups, keeper: Instance)
    | Read(g: Groups, keeper: Instance)
    | Recover(g: Groups, keeper: Instance)
    | Write(g: Groups, keeper: Instance, rec: Record)
    | Listed(g: Groups)
    | GaveUp

  // Poll's absence loop and expiry loop.
  datatype SweepPc =
    | Scan(g: Groups)
    | Miss(g: Groups, todo: seq<Record>)
    | Confirm(g: Groups, todo: seq<Record>, missed: Record)
    | Remove(g: Groups, todo: seq<Record>, missed: Record)
    | SelectExpired
    | Expire(now: Time, todo: seq<Record>)
    | NoteExpired(now: Time, todo: seq<Record>, rec: Record)
    | Swept

  datatype Thread =
    | Creating(c: CreatePc)
    | Calling(r: CallPc)
    | Listing(p: ListingPc)
    | Sweeping(s: SweepPc)

  // Answers of the provider and the clock, and the order a map is iterated in.
  datatype Env = Env(
    ok: bool,
    vm: Instance,
    listing: seq<Instance>,
    sorted: seq<Instance>,
    order: seq<string>,
    at: Time, comparedAt: Time, clampedAt: Time)

  // Why Terminate was called on an instance; a create compensates for its own
  // generation.
  datatype Attempt =
    | Compensation(lease: nat, instanceId: string)
    | Deletion(instanceId: string)
    | Duplicate(instanceId: string)
    | Cleanup(lease: nat, instanceId: string)
    | Expiry(lease: nat, instanceId: string)

  // What happened so far; lease sets hold generations.
  datatype History = History(
    attempted: set<Attempt>,     // calls of Terminate, whatever they returned
    misses: map<nat, nat>,       // counted absences per generation
    cleaned: set<(nat, string)>, // poll's cleanup of this generation's instance returned nil
    marked: set<nat>,            // tombstoned by markLaunchingDeletion
    polled: set<nat>,            // reached by a poll's listing update
    committed: set<nat>,         // bound by their own create
    settled: set<nat>,           // their create has finished
    tainted: set<nat>)           // some write put them in a state that refuses a commit

  const START: History := History({}, map[], {}, {}, {}, {}, {}, {})

  function Misses(h: History, lease: nat): nat {
    if lease in h.misses then h.misses[lease] else 0
  }

  function Taint(h: History, lease: nat, state: string): History {
    if Refuses(state) then h.(tainted := h.tainted + {lease}) else h
  }

  function NewReservation(id: string, name: string, namespace: string, workspace: string, spec: Spec, at: Time): Record {
    Record(id, name, namespace, workspace, "", "launching", at, 0, Some(spec), SandboxStatus(name, "", "Pending", at), 0)
  }

  function ActState(intent: Intent): string {
    if intent == Stop then "stopping" else "deleting"
  }

  // ---- Snapshots --------------------------------------------------------------

  // An iteration order of a map: every key once.
  predicate Enumerates(order: seq<string>, keys: set<string>) {
    |order| == |keys| && (forall k :: k in keys ==> k in order) && (forall k :: k in order ==> k in keys)
  }

  function Select(records: map<string, Record>, order: seq<string>, keep: Record -> bool): (out: seq<Record>)
    ensures forall r :: r in out ==> keep(r) && r.sandboxId in Sandboxes(records) && r in Snapshots(records)
  {
    if order == [] then []
    else
      var rest := Select(records, order[1..], keep);
      if order[0] in records && keep(Redact(records[order[0]])) then
        assert Redact(records[order[0]]) in Snapshots(records);
        [Redact(records[order[0]])] + rest
      else rest
  }

  function Snapshots(records: map<string, Record>): set<Record> {
    set id | id in records :: Redact(records[id])
  }

  function Sandboxes(records: map<string, Record>): set<string> {
    set r | r in Snapshots(records) :: r.sandboxId
  }

  function GroupIds(listing: seq<Instance>): set<string> {
    set x | x in listing && x.sandboxId != "" :: x.sandboxId
  }

  function Ids(s: seq<Instance>): seq<string> {
    if s == [] then [] else [s[0].id] + Ids(s[1..])
  }

  // ---- Moves -------------------------------------------------------------------

  datatype Out<T> = Out(ledger: Ledger, hist: History, pc: T)

  function Update(l: Ledger, cap: nat, id: string, accept: Record -> bool, change: Record -> Record): Ledger {
    Apply(l, cap, OpUpdate(id, accept, change))
  }

  predicate Accepted(l: Ledger, id: string, accept: Record -> bool) {
    id in l.store.records && accept(Redact(l.store.records[id]))
  }

  function MoveCreate(l: Ledger, h: History, pc: CreatePc, e: Env, cap: nat): Out<CreatePc> {
    match pc
    case Reserve(rec) =>
      var res := ReserveWithLease(l.store, cap, rec).1;
      if res.Reserved?
      then Out(Apply(l, cap, OpReserve(rec)), h, Launch(rec.sandboxId, res.lease, rec.createdAt))
      else Out(l, h, Refused)
    case Launch(id, lease, createdAt) =>
      // a failed render, a failed Launch and a nameless VM all roll back
      if e.ok && e.vm.id != "" then
        var vm := e.vm.(state := if e.vm.state == "" then "Pending" else e.vm.state,
                        createdAt := if e.vm.createdAt == ZERO_TIME then createdAt else e.vm.createdAt);
        Out(l, h, Commit(id, lease, createdAt, vm))
      else Out(l, h, Abandon(id, lease, None))
    case Commit(id, lease, createdAt, vm) =>
      if Accepted(l, id, CommitAccepts(lease)) then
        var h' := Taint(h.(committed := h.committed + {lease}, settled := h.settled + {lease}), lease, vm.state);
        Out(Update(l, cap, id, CommitAccepts(lease), CommitChange(vm, createdAt)), h', Returned(id, lease, Committed(vm.id)))
      else Out(l, h, Compensate(id, lease, vm.id))
    case Compensate(id, lease, vm) =>
      // the outcome of this Terminate is only logged
      Out(l, h.(attempted := h.attempted + {Compensation(lease, vm)}), Abandon(id, lease, Some(vm)))
    case Abandon(id, lease, launched) =>
      Out(Apply(l, cap, OpRollback(id)), h.(settled := h.settled + {lease}), Returned(id, lease, Failed(launched)))
    case Returned(_, _, _) => Out(l, h, pc)
    case Refused => Out(l, h, pc)
  }

  function Resolved(intent: Intent, rec: Record): CallPc {
    if intent == Get then Over(Found(rec)) else Act(intent, rec)
  }

  function MoveCall(l: Ledger, h: History, pc: CallPc, e: Env, cap: nat): Out<CallPc> {
    match pc
    case MarkScan(id, name) =>
      if (id == "") == (name == "") then Out(l, h, Find(Delete, id, name))
      else if !Enumerates(e.order, l.store.records.Keys) then Out(l, h, pc)
      else
        var wanted := (r: Record) => !r.Bound() && (id != "" ==> r.sandboxId == id) && (name != "" ==> r.name == name);
        Out(l, h, Mark(id, name, Select(l.store.records, e.order, wanted)))
    case Mark(id, name, todo) =>
      if todo == [] then Out(l, h, Find(Delete, id, name))
      else
        var rec := todo[0];
        if Accepted(l, rec.sandboxId, MarkAccepts(rec)) then
          var h' := h.(marked := h.marked + {rec.lease}, tainted := h.tainted + {rec.lease});
          Out(Update(l, cap, rec.sandboxId, MarkAccepts(rec), MarkChange(e.at)), h', Over(Done))
        else Out(l, h, Mark(id, name, todo[1..]))
    case Find(intent, id, name) =>
      if (id == "") == (name == "") then Out(l, h, Over(Erred))
      else if id != "" then
        if id in l.store.records && l.store.records[id].Bound()
        then Out(l, h, Resolved(intent, Redact(l.store.records[id])))
        else Out(l, h, List(intent, id, name))
      else if !Enumerates(e.order, l.store.records.Keys) then Out(l, h, pc)
      else
        var found := Select(l.store.records, e.order, (r: Record) => r.name == name && r.Bound());
        if |found| == 1 then Out(l, h, Resolved(intent, found[0]))
        else if |found| > 1 then Out(l, h, Over(Erred))
        else Out(l, h, List(intent, id, name))
    case List(intent, id, name) =>
      // the provider filters by name; it also names what it lists
      if exists x :: x in e.listing && (x.id == "" || x.sandboxId == "" || (name != "" && x.name != name)) then Out(l, h, pc)
      else
        var active := Live(e.listing);
        if !e.ok || |active| > 1 then Out(l, h, Over(Erred))
        else if active == [] then Out(l, h, Over(NotFound))
        else Out(l, h, Insert(intent, RecordFromInstance(active[0], e.at)))
    case Insert(intent, rec) =>
      if rec.sandboxId in l.store.records then Out(l, h, Adopt(intent, rec))
      else Out(Apply(l, cap, OpAdd(rec)), Taint(h, l.store.nextLease + 1, rec.state), Resolved(intent, rec))
    case Adopt(intent, rec) =>
      if Accepted(l, rec.sandboxId, AdoptAccepts()) then
        var r := l.store.records[rec.sandboxId];
        Out(Update(l, cap, rec.sandboxId, AdoptAccepts(), AdoptChange(rec)), Taint(h, r.lease, rec.state),
            Resolved(intent, Redact(AdoptChange(rec)(r))))
      else Out(l, h, FindAgain(intent, rec))
    case FindAgain(intent, rec) =>
      if rec.sandboxId in l.store.records && l.store.records[rec.sandboxId].Bound()
      then Out(l, h, Resolved(intent, Redact(l.store.records[rec.sandboxId])))
      else Out(l, h, Over(Erred))
    case Act(intent, rec) =>
      var h' := if intent == Delete then h.(attempted := h.attempted + {Deletion(rec.instanceId)}) else h;
      Out(l, h', if e.ok then Note(intent, rec) else Over(Erred))
    case Note(intent, rec) =>
      if Accepted(l, rec.sandboxId, ActAccepts(rec)) then
        Out(Update(l, cap, rec.sandboxId, ActAccepts(rec), ActChange(ActState(intent), e.at)),
            h.(tainted := h.tainted + {l.store.records[rec.sandboxId].lease}), Over(Done))
      else Out(l, h, Over(Done))
    case Over(_) => Out(l, h, pc)
  }

  predicate InOrder(s: seq<Instance>) {
    forall i :: 0 < i < |s| ==> OlderEq(s[i - 1], s[i])
  }

  function MoveListing(l: Ledger, h: History, pc: ListingPc, e: Env, cap: nat, maxAge: int): Out<ListingPc> {
    match pc
    case Fetch =>
      if !e.ok then Out(l, h, GaveUp)
      else if (exists x :: x in e.listing && x.id == "") || !Enumerates(e.order, GroupIds(e.listing)) then Out(l, h, pc)
      else Out(l, h, NextGroup(Groups(e.listing, e.order, {})))
    case NextGroup(g) =>
      if g.todo == [] then Out(l, h, Listed(g))
      else if multiset(e.sorted) != multiset(Group(g.listing, g.todo[0])) || !InOrder(e.sorted) then Out(l, h, pc)
      else
        var live := Live(e.sorted);
        if live == [] then Out(l, h, NextGroup(g.(todo := g.todo[1..])))
        else
          var k := KeeperIndex(live);
          Out(l, h, Duplicates(g.(todo := g.todo[1..], seen := g.seen + {g.todo[0]}), live[k], Ids(live[..k] + live[k + 1..])))
    case Duplicates(g, keeper, names) =>
      if names != [] then
        Out(l, h.(attempted := h.attempted + {Duplicate(names[0])}),
            if e.ok then Duplicates(g, keeper, names[1..]) else GaveUp)
      else if IsTerminal(keeper.state) then Out(l, h, Terminal(g, keeper))
      else Out(l, h, Read(g, keeper))
    case Terminal(g, keeper) =>
      Out(Apply(l, cap, OpDelete(keeper.sandboxId, TerminalAccepts(keeper))), h, NextGroup(g))
    case Read(g, keeper) =>
      if keeper.sandboxId !in l.store.records then Out(l, h, Recover(g, keeper))
      else
        var rec := Redact(l.store.records[keeper.sandboxId]);
        Out(l, h, if NeedsUpdate(KubeVirt, rec, keeper) then Write(g, keeper, rec) else NextGroup(g))
    case Recover(g, keeper) =>
      if keeper.sandboxId in l.store.records then Out(l, h, GaveUp)
      else
        Out(Apply(l, cap, OpAdd(Recovered(keeper, e.at, e.comparedAt, e.clampedAt, maxAge))),
            Taint(h, l.store.nextLease + 1, keeper.state), NextGroup(g))
    case Write(g, keeper, rec) =>
      if Accepted(l, keeper.sandboxId, RefreshAccepts(rec)) then
        var observed := Observed(KubeVirt, rec, keeper);
        var h' := Taint(h.(polled := h.polled + {rec.lease}), rec.lease, observed);
        Out(Update(l, cap, keeper.sandboxId, RefreshAccepts(rec), RefreshChange(keeper, observed, e.at)), h', NextGroup(g))
      else Out(l, h, NextGroup(g))
    case Listed(_) => Out(l, h, pc)
    case GaveUp => Out(l, h, pc)
  }

  function MoveSweep(l: Ledger, h: History, pc: SweepPc, e: Env, cap: nat, maxAge: int): Out<SweepPc> {
    match pc
    case Scan(g) =>
      if !Enumerates(e.order, l.store.records.Keys) then Out(l, h, pc)
      else Out(l, h, Miss(g, Select(l.store.records, e.order, (r: Record) => r.Bound() && r.sandboxId !in g.seen)))
    case Miss(g, todo) =>
      if todo == [] then Out(l, h, SelectExpired)
      else
        var rec := todo[0];
        if Accepted(l, rec.sandboxId, SameGeneration(rec)) then
          var missed := Redact(CountMiss()(l.store.records[rec.sandboxId]));
          Out(Update(l, cap, rec.sandboxId, SameGeneration(rec), CountMiss()),
              h.(misses := h.misses[rec.lease := Misses(h, rec.lease) + 1]),
              if missed.missingPolls >= MISSING_POLL_THRESHOLD then Confirm(g, todo[1..], missed) else Miss(g, todo[1..]))
        else Out(l, h, Miss(g, todo[1..]))
    case Confirm(g, todo, missed) =>
      var h' := h.(attempted := h.attempted + {Cleanup(missed.lease, missed.instanceId)});
      if e.ok
      then Out(l, h'.(cleaned := h'.cleaned + {(missed.lease, missed.instanceId)}), Remove(g, todo, missed))
      else Out(l, h', Miss(g, todo))
    case Remove(g, todo, missed) =>
      Out(Apply(l, cap, OpDelete(missed.sandboxId, RemoveAccepts(missed))), h, Miss(g, todo))
    case SelectExpired =>
      if !Enumerates(e.order, l.store.records.Keys) then Out(l, h, pc)
      else Out(l, h, Expire(e.at, Select(l.store.records, e.order, (r: Record) => Expires(r, DELETING, e.at, maxAge))))
    case Expire(now, todo) =>
      if todo == [] then Out(l, h, Swept)
      else
        var h' := h.(attempted := h.attempted + {Expiry(todo[0].lease, todo[0].instanceId)});
        Out(l, h', if e.ok then NoteExpired(now, todo[1..], todo[0]) else Expire(now, todo[1..]))
    case NoteExpired(now, todo, rec) =>
      if Accepted(l, rec.sandboxId, SameGeneration(rec)) then
        Out(Update(l, cap, rec.sandboxId, SameGeneration(rec), ActChange("deleting", e.at)),
            h.(tainted := h.tainted + {rec.lease}), Expire(now, todo))
      else Out(l, h, Expire(now, todo))
    case Swept => Out(l, h, pc)
  }

  function Move(l: Ledger, h: History, t: Thread, e: Env, cap: nat, maxAge: int): Out<Thread> {
    match t
    case Creating(pc) => var o := MoveCreate(l, h, pc, e, cap); Out(o.ledger, o.hist, Creating(o.pc))
    case Calling(pc) => var o := MoveCall(l, h, pc, e, cap); Out(o.ledger, o.hist, Calling(o.pc))
    case Listing(Listed(g)) => Out(l, h, Sweeping(Scan(g)))
    case Listing(pc) => var o := MoveListing(l, h, pc, e, cap, maxAge); Out(o.ledger, o.hist, Listing(o.pc))
    case Sweeping(pc) => var o := MoveSweep(l, h, pc, e, cap, maxAge); Out(o.ledger, o.hist, Sweeping(o.pc))
  }

  // ---- Runs ----------------------------------------------------------------------

  datatype World = World(ledger: Ledger, hist: History, threads: map<nat, Thread>)

  const FRESH: World := World(EMPTY, START, map[])

  datatype Action =
    | Begin(tid: nat, thread: Thread)   // an RPC or a poll starts
    | Go(tid: nat, env: Env)            // one atomic step of a thread

  // How RPCs and polls start. A delete enters at its tombstone scan.
  ghost predicate Starts(t: Thread) {
    match t
    case Creating(Reserve(rec)) =>
      rec.sandboxId != "" && exists spec: Spec ::
        rec == NewReservation(rec.sandboxId, rec.name, rec.namespace, rec.workspace, spec, rec.createdAt)
    case Calling(MarkScan(_, _)) => true
    case Calling(Find(intent, _, _)) => intent != Delete
    case Listing(Fetch) => true
    case _ => false
  }

  ghost predicate Enabled(w: World, a: Action) {
    match a
    case Begin(tid, t) => tid !in w.threads && Starts(t)
    case Go(tid, _) => tid in w.threads
  }

  function Step(w: World, a: Action, cap: nat, maxAge: int): World {
    match a
    case Begin(tid, t) => w.(threads := w.threads[tid := t])
    case Go(tid, e) =>
      if tid !in w.threads then w
      else
        var out := Move(w.ledger, w.hist, w.threads[tid], e, cap, maxAge);
        World(out.ledger, out.hist, w.threads[tid := out.pc])
  }

  ghost predicate Taken(ws: seq<World>, acts: seq<Action>, cap: nat, maxAge: int, i: nat)
    requires i < |acts| && |ws| == |acts| + 1
  {
    Enabled(ws[i], acts[i]) && ws[i + 1] == Step(ws[i], acts[i], cap, maxAge)
  }

  ghost predicate Run(ws: seq<World>, acts: seq<Action>, cap: nat, maxAge: int) {
    |ws| == |acts| + 1 && ws[0] == FRESH && forall i :: 0 <= i < |acts| ==> Taken(ws, acts, cap, maxAge, i)
  }
}
