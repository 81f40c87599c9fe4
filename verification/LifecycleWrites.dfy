// What each step of the interleaved driver writes, field by field: the whole
// registry after the step, over every run.
module LifecycleWrites {
  import opened Records
  import opened Store
  import opened Fleet
  import opened Lifecycle
  import opened LifecycleInvariant
  import opened LifecycleSafety

  type Registered = map<string, Record>

  // The sandbox a step would write to.
  function Target(t: Thread): Option<string> {
    match t
    case Creating(Commit(id, _, _, _)) => Some(id)
    case Calling(Mark(_, _, todo)) => if todo == [] then None else Some(todo[0].sandboxId)
    case Calling(Adopt(_, rec)) => Some(rec.sandboxId)
    case Calling(Note(_, rec)) => Some(rec.sandboxId)
    case Listing(Write(_, keeper, _)) => Some(keeper.sandboxId)
    case Sweeping(Miss(_, todo)) => if todo == [] then None else Some(todo[0].sandboxId)
    case Sweeping(NoteExpired(_, _, rec)) => Some(rec.sandboxId)
    case _ => None
  }

  // When it does.
  predicate Meets(t: Thread, r: Record) {
    match t
    case Creating(Commit(_, lease, _, _)) =>
      r.lease == lease && r.state != "delete-requested" && r.state != "deleting" && r.state != "stopping"
    case Calling(Mark(_, _, todo)) => todo != [] && r.lease == todo[0].lease && r.instanceId == "" && r.state == "launching"
    case Calling(Adopt(_, _)) => r.instanceId == "" && r.state == "launching"
    case Calling(Note(_, rec)) => r.instanceId == rec.instanceId
    case Listing(Write(_, _, rec)) => r.lease == rec.lease && (r.instanceId == "" || r.instanceId == rec.instanceId)
    case Sweeping(Miss(_, todo)) => todo != [] && r.lease == todo[0].lease && r.instanceId == todo[0].instanceId
    case Sweeping(NoteExpired(_, _, rec)) => r.lease == rec.lease && r.instanceId == rec.instanceId
    case _ => false
  }

  // A poll does not take over that a VM still runs which was asked to stop or go.
  function Overtaken(asked: string, listed: string): string {
    if listed == "Running" && asked in {"deleting", "stopping"} then asked else listed
  }

  // What it writes.
  function Rewritten(t: Thread, e: Env, r: Record): Record {
    match t
    case Creating(Commit(_, _, at, vm)) =>
      r.(instanceId := vm.id, state := vm.state, createdAt := vm.createdAt, lastStatus := Some(Status(r.name, vm.id, vm.state, at)))
    case Calling(Mark(_, _, _)) => r.(state := "delete-requested", lastStatus := Some(Status(r.name, "", "deleting", e.at)))
    case Calling(Adopt(_, x)) =>
      r.(instanceId := x.instanceId, state := x.state, createdAt := x.createdAt, lastStatus := x.lastStatus)
    case Calling(Note(intent, _)) =>
      var state := if intent == Stop then "stopping" else "deleting";
      r.(state := state, lastStatus := Some(Status(r.name, r.instanceId, state, e.at)))
    case Listing(Write(_, x, rec)) =>
      var state := Overtaken(rec.state, x.state);
      r.(instanceId := x.id, missingPolls := 0, createdAt := if r.createdAt == 0 then x.createdAt else r.createdAt,
         state := state, lastStatus := if state == r.state then r.lastStatus else Some(Status(r.name, x.id, state, e.at)))
    case Sweeping(Miss(_, _)) => r.(missingPolls := r.missingPolls + 1)
    case Sweeping(NoteExpired(_, _, _)) =>
      r.(state := "deleting", lastStatus := Some(Status(r.name, r.instanceId, "deleting", e.at)))
    case _ => r
  }

  // Such a step rewrites the record of its target, if that is stored and meets
  // its guard, and nothing else.
  lemma StepRewrites(ws: seq<World>, acts: seq<Action>, cap: nat, maxAge: int, n: nat)
    requires Run(ws, acts, cap, maxAge) && n < |acts|
    requires acts[n].Go? && acts[n].tid in ws[n].threads && Target(ws[n].threads[acts[n].tid]).Some?
    ensures
      var t, id := ws[n].threads[acts[n].tid], Target(ws[n].threads[acts[n].tid]).value;
      var before, after := ws[n].ledger.store, ws[n + 1].ledger.store;
      if id in before.records && Meets(t, before.records[id])
      then after == before.(records := before.records[id := Rewritten(t, acts[n].env, before.records[id])])
      else after == before
  {
    var w, tid, e := ws[n], acts[n].tid, acts[n].env;
    RunKeeps(ws, acts, cap, maxAge, n);
    RunStep(ws, acts, cap, maxAge, n + 1);
    hide Run;
    var id := Target(w.threads[tid]).value;
    if id in w.ledger.store.records { RecordFacts(w.ledger, w.hist, cap, id); }
    hide Inv;
    match w.threads[tid] {
      case Creating(_) => CreateRewrites(w, tid, e, cap, maxAge, id);
      case Calling(_) => CallRewrites(w, tid, e, cap, maxAge, id);
      case Listing(_) => ListingRewrites(w, tid, e, cap, maxAge, id);
      case Sweeping(_) => SweepRewrites(w, tid, e, cap, maxAge, id);
    }
  }

  ghost predicate Rewrites(w: World, t: Thread, e: Env, id: string, w': World) {
    var before, after := w.ledger.store, w'.ledger.store;
    if id in before.records && Meets(t, before.records[id])
    then after == before.(records := before.records[id := Rewritten(t, e, before.records[id])])
    else after == before
  }

  ghost predicate RecordAt(w: World, id: string) {
    id in w.ledger.store.records ==> Redact(w.ledger.store.records[id]) == w.ledger.store.records[id]
  }

  lemma CreateRewrites(w: World, tid: nat, e: Env, cap: nat, maxAge: int, id: string)
    requires tid in w.threads && w.threads[tid].Creating? && Target(w.threads[tid]) == Some(id) && RecordAt(w, id)
    ensures Rewrites(w, w.threads[tid], e, id, Step(w, Go(tid, e), cap, maxAge))
  {
  }

  lemma CallRewrites(w: World, tid: nat, e: Env, cap: nat, maxAge: int, id: string)
    requires tid in w.threads && w.threads[tid].Calling? && Target(w.threads[tid]) == Some(id) && RecordAt(w, id)
    ensures Rewrites(w, w.threads[tid], e, id, Step(w, Go(tid, e), cap, maxAge))
  {
  }

  lemma ListingRewrites(w: World, tid: nat, e: Env, cap: nat, maxAge: int, id: string)
    requires tid in w.threads && w.threads[tid].Listing? && Target(w.threads[tid]) == Some(id) && RecordAt(w, id)
    ensures Rewrites(w, w.threads[tid], e, id, Step(w, Go(tid, e), cap, maxAge))
  {
  }

  lemma SweepRewrites(w: World, tid: nat, e: Env, cap: nat, maxAge: int, id: string)
    requires tid in w.threads && w.threads[tid].Sweeping? && Target(w.threads[tid]) == Some(id) && RecordAt(w, id)
    ensures Rewrites(w, w.threads[tid], e, id, Step(w, Go(tid, e), cap, maxAge))
  {
  }

  // ---- New records -------------------------------------------------------------------

  // A create reserves its id with a launching record of the next lease, without
  // the token, and goes on to launch; or it is refused, as the id is known or
  // the capacity used up.
  lemma StepReserves(ws: seq<World>, acts: seq<Action>, cap: nat, maxAge: int, n: nat, tid: nat)
    requires Run(ws, acts, cap, maxAge) && n < |acts| && acts[n].Go? && acts[n].tid == tid
    requires tid in ws[n].threads && ws[n].threads[tid].Creating? && ws[n].threads[tid].c.Reserve?
    ensures tid in ws[n + 1].threads
    ensures
      var rec, before, after := ws[n].threads[tid].c.rec, ws[n].ledger.store, ws[n + 1].ledger.store;
      var id, lease := rec.sandboxId, before.nextLease + 1;
      if id !in before.records && |before.records| < cap then
        && rec.spec.Some? && after.nextLease == lease
        && after.records == before.records[id := Record(
             id, rec.name, rec.namespace, rec.workspace, "", "launching", rec.createdAt, 0,
             Some(Spec("", rec.spec.value.rest)), Some(Status(rec.name, "", "Pending", rec.createdAt)), lease)]
        && ws[n + 1].threads[tid] == Creating(Launch(id, lease, rec.createdAt))
      else after == before && ws[n + 1].threads[tid] == Creating(Refused)
  {
    RunKeeps(ws, acts, cap, maxAge, n);
    RunStep(ws, acts, cap, maxAge, n + 1);
    hide Run;
    assert ThreadOk(ws[n].ledger, ws[n].hist, ws[n].threads[tid]);
    hide Inv, MoveCall, MoveListing, MoveSweep;
  }

  // A launch that returned a named VM is committed with that VM, pending unless
  // it has a state, as old as the request unless it has an age; any other
  // outcome rolls the reservation back.
  lemma StepLaunches(ws: seq<World>, acts: seq<Action>, cap: nat, maxAge: int, n: nat, tid: nat)
    requires Run(ws, acts, cap, maxAge) && n < |acts| && acts[n].Go? && acts[n].tid == tid
    requires tid in ws[n].threads && ws[n].threads[tid].Creating? && ws[n].threads[tid].c.Launch?
    ensures tid in ws[n + 1].threads && ws[n + 1].ledger == ws[n].ledger
    ensures
      var pc, vm, after := ws[n].threads[tid].c, acts[n].env.vm, ws[n + 1].threads[tid];
      if acts[n].env.ok && vm.id != "" then
        after.Creating? && after.c.Commit?
        && after.c.id == pc.id && after.c.lease == pc.lease && after.c.createdAt == pc.createdAt && after.c.vm.id == vm.id
        && after.c.vm.state == (if vm.state == "" then "Pending" else vm.state)
        && after.c.vm.createdAt == (if vm.createdAt == 0 then pc.createdAt else vm.createdAt)
      else after == Creating(Abandon(pc.id, pc.lease, None))
  {
    RunStep(ws, acts, cap, maxAge, n + 1);
    hide Run, MoveCall, MoveListing, MoveSweep;
  }

  // A poll refreshes a record exactly if its instance, its state or its misses
  // are not as listed, and recovers a sandbox exactly if there is no record.
  lemma StepDecides(ws: seq<World>, acts: seq<Action>, cap: nat, maxAge: int, n: nat, tid: nat)
    requires Run(ws, acts, cap, maxAge) && n < |acts| && acts[n].Go? && acts[n].tid == tid
    requires tid in ws[n].threads && ws[n].threads[tid].Listing? && ws[n].threads[tid].p.Read?
    ensures tid in ws[n + 1].threads && ws[n + 1].ledger == ws[n].ledger
    ensures
      var x, g, records, after := ws[n].threads[tid].p.keeper, ws[n].threads[tid].p.g, ws[n].ledger.store.records, ws[n + 1].threads[tid];
      if x.sandboxId !in records then after == Listing(Recover(g, x))
      else
        var r := records[x.sandboxId];
        if r.instanceId == x.id && r.missingPolls == 0 && r.state == Overtaken(r.state, x.state) then after == Listing(NextGroup(g))
        else after == Listing(Write(g, x, r))
  {
    RunKeeps(ws, acts, cap, maxAge, n);
    RunStep(ws, acts, cap, maxAge, n + 1);
    hide Run;
    var id := ws[n].threads[tid].p.keeper.sandboxId;
    if id in ws[n].ledger.store.records { RecordFacts(ws[n].ledger, ws[n].hist, cap, id); }
    hide Inv, MoveCall, MoveCreate, MoveSweep;
  }

  // What a recovery knows of a sandbox is what its instance says; an age of
  // zero, or more than five minutes ahead of the clock, counts as just too old.
  predicate RecoveredFrom(r: Record, x: Instance, at: Time, comparedAt: Time, clampedAt: Time, maxAge: int, lease: nat) {
    r == Record(x.sandboxId, x.name, x.namespace, x.workspace, x.id, x.state,
                if x.createdAt == 0 || x.createdAt - comparedAt > 300_000_000_000 then clampedAt - maxAge - 1_000_000_000 else x.createdAt,
                0, None, Some(Status(x.name, x.id, x.state, at)), lease)
  }

  // A poll that recovers a sandbox adds its record under the next lease.
  lemma StepRecovers(ws: seq<World>, acts: seq<Action>, cap: nat, maxAge: int, n: nat, tid: nat)
    requires Run(ws, acts, cap, maxAge) && n < |acts| && acts[n].Go? && acts[n].tid == tid
    requires tid in ws[n].threads && ws[n].threads[tid].Listing? && ws[n].threads[tid].p.Recover?
    ensures
      var x, before, after := ws[n].threads[tid].p.keeper, ws[n].ledger.store, ws[n + 1].ledger.store;
      var id, e := x.sandboxId, acts[n].env;
      if id in before.records then after == before
      else
        && id in after.records && after.records == before.records[id := after.records[id]]
        && after.nextLease == before.nextLease + 1
        && RecoveredFrom(after.records[id], x, e.at, e.comparedAt, e.clampedAt, maxAge, after.nextLease)
  {
    RunStep(ws, acts, cap, maxAge, n + 1);
    hide Run, MoveCall, MoveCreate, MoveSweep;
  }

  // A call that found no record adds what it resolved, unless one has come up
  // meanwhile.
  lemma StepInserts(ws: seq<World>, acts: seq<Action>, cap: nat, maxAge: int, n: nat, tid: nat)
    requires Run(ws, acts, cap, maxAge) && n < |acts| && acts[n].Go? && acts[n].tid == tid
    requires tid in ws[n].threads && ws[n].threads[tid].Calling? && ws[n].threads[tid].r.Insert?
    ensures
      var rec, before, after := ws[n].threads[tid].r.rec, ws[n].ledger.store, ws[n + 1].ledger.store;
      if rec.sandboxId in before.records then after == before
      else
        && after.nextLease == before.nextLease + 1
        && after.records == before.records[rec.sandboxId := rec.(
             lease := after.nextLease, spec := if rec.spec.Some? then Some(Spec("", rec.spec.value.rest)) else None)]
  {
    RunKeeps(ws, acts, cap, maxAge, n);
    RunStep(ws, acts, cap, maxAge, n + 1);
    hide Run;
    assert ThreadOk(ws[n].ledger, ws[n].hist, ws[n].threads[tid]);
    hide Inv, MoveCreate, MoveListing, MoveSweep;
  }

  // ---- What a generation keeps -----------------------------------------------------------

  predicate SameIdentity(a: Record, b: Record) {
    a.sandboxId == b.sandboxId && a.name == b.name && a.namespace == b.namespace && a.workspace == b.workspace && a.spec == b.spec
  }

  // A step that rewrites nothing adds records, removes them, or leaves them.
  lemma CreateKeepsRecords(l: Ledger, h: History, pc: CreatePc, e: Env, cap: nat, id: string)
    requires Target(Creating(pc)).None?
    requires id in l.store.records && id in MoveCreate(l, h, pc, e, cap).ledger.store.records
    ensures MoveCreate(l, h, pc, e, cap).ledger.store.records[id] == l.store.records[id]
  {
  }

  lemma CallKeepsRecords(l: Ledger, h: History, pc: CallPc, e: Env, cap: nat, id: string)
    requires Target(Calling(pc)).None?
    requires id in l.store.records && id in MoveCall(l, h, pc, e, cap).ledger.store.records
    ensures MoveCall(l, h, pc, e, cap).ledger.store.records[id] == l.store.records[id]
  {
  }

  lemma ListingKeepsRecords(l: Ledger, h: History, pc: ListingPc, e: Env, cap: nat, maxAge: int, id: string)
    requires Target(Listing(pc)).None?
    requires id in l.store.records && id in MoveListing(l, h, pc, e, cap, maxAge).ledger.store.records
    ensures MoveListing(l, h, pc, e, cap, maxAge).ledger.store.records[id] == l.store.records[id]
  {
  }

  lemma SweepKeepsRecords(l: Ledger, h: History, pc: SweepPc, e: Env, cap: nat, maxAge: int, id: string)
    requires Target(Sweeping(pc)).None?
    requires id in l.store.records && id in MoveSweep(l, h, pc, e, cap, maxAge).ledger.store.records
    ensures MoveSweep(l, h, pc, e, cap, maxAge).ledger.store.records[id] == l.store.records[id]
  {
  }

  lemma QuietKeepsRecords(w: World, tid: nat, e: Env, cap: nat, maxAge: int, id: string)
    requires tid in w.threads && Target(w.threads[tid]).None?
    requires id in w.ledger.store.records && id in Step(w, Go(tid, e), cap, maxAge).ledger.store.records
    ensures Step(w, Go(tid, e), cap, maxAge).ledger.store.records[id] == w.ledger.store.records[id]
  {
    hide MoveCreate, MoveCall, MoveListing, MoveSweep;
    match w.threads[tid]
    case Creating(pc) => CreateKeepsRecords(w.ledger, w.hist, pc, e, cap, id);
    case Calling(pc) => CallKeepsRecords(w.ledger, w.hist, pc, e, cap, id);
    case Listing(pc) => if !pc.Listed? { ListingKeepsRecords(w.ledger, w.hist, pc, e, cap, maxAge, id); }
    case Sweeping(pc) => SweepKeepsRecords(w.ledger, w.hist, pc, e, cap, maxAge, id);
  }

  lemma StepKeepsIdentity(ws: seq<World>, acts: seq<Action>, cap: nat, maxAge: int, n: nat, id: string)
    requires Run(ws, acts, cap, maxAge) && n < |acts|
    requires id in ws[n].ledger.store.records && id in ws[n + 1].ledger.store.records
    ensures SameIdentity(ws[n].ledger.store.records[id], ws[n + 1].ledger.store.records[id])
  {
    RunStep(ws, acts, cap, maxAge, n + 1);
    if acts[n].Go? {
      var t := ws[n].threads[acts[n].tid];
      if Target(t).Some? {
        StepRewrites(ws, acts, cap, maxAge, n);
      } else {
        QuietKeepsRecords(ws[n], acts[n].tid, acts[n].env, cap, maxAge, id);
      }
    }
    hide Run, Move;
  }

  // As long as a generation lives, its id, name, namespace, workspace and spec
  // stay as they were.
  lemma {:induction false} GenerationKeepsIdentity(
    ws: seq<World>, acts: seq<Action>, cap: nat, maxAge: int, m: nat, n: nat, id: string)
    requires Run(ws, acts, cap, maxAge) && m <= n < |ws|
    requires id in ws[m].ledger.store.records && id in ws[n].ledger.store.records
    requires ws[m].ledger.store.records[id].lease == ws[n].ledger.store.records[id].lease
    ensures SameIdentity(ws[m].ledger.store.records[id], ws[n].ledger.store.records[id])
    decreases n - m
  {
    if m < n {
      StillThere(ws, acts, cap, maxAge, m, n, id);
      GenerationKeepsIdentity(ws, acts, cap, maxAge, m, n - 1, id);
      StepKeepsIdentity(ws, acts, cap, maxAge, n - 1, id);
      hide Run;
    }
  }

  lemma StillThere(ws: seq<World>, acts: seq<Action>, cap: nat, maxAge: int, m: nat, n: nat, id: string)
    requires Run(ws, acts, cap, maxAge) && m < n < |ws|
    requires id in ws[m].ledger.store.records && id in ws[n].ledger.store.records
    requires ws[m].ledger.store.records[id].lease == ws[n].ledger.store.records[id].lease
    ensures id in ws[n - 1].ledger.store.records
    ensures ws[n - 1].ledger.store.records[id].lease == ws[n].ledger.store.records[id].lease
  {
    var lease := ws[n].ledger.store.records[id].lease;
    RunKeeps(ws, acts, cap, maxAge, m);
    RunKeeps(ws, acts, cap, maxAge, n - 1);
    RunKeeps(ws, acts, cap, maxAge, n);
    RunGrows(ws, acts, cap, maxAge, m, n - 1);
    RunGrows(ws, acts, cap, maxAge, n - 1, n);
    hide Run;
    RecordFacts(ws[m].ledger, ws[m].hist, cap, id);
    RecordFacts(ws[n].ledger, ws[n].hist, cap, id);
    LiveUnlessRetired(ws[n], cap, id, lease);
    LiveUnlessRetired(ws[n - 1], cap, id, lease);
  }

  // ---- Calls of the provider and removals -----------------------------------------------

  // Every Terminate a create or a poll makes, and how it goes on from the answer:
  // a create whatever it is, a poll's listing loop and its other loops only from
  // a success.
  lemma StepTerminates(ws: seq<World>, acts: seq<Action>, cap: nat, maxAge: int, n: nat, tid: nat)
    requires Run(ws, acts, cap, maxAge) && n < |acts| && acts[n].Go? && acts[n].tid == tid && tid in ws[n].threads
    ensures tid in ws[n + 1].threads
    ensures
      var ok, before, after, t := acts[n].env.ok, ws[n].hist, ws[n + 1].hist, ws[n + 1].threads[tid];
      match ws[n].threads[tid]
      case Creating(Compensate(id, lease, vm)) =>
        after == before.(attempted := before.attempted + {Compensation(lease, vm)}) && t == Creating(Abandon(id, lease, Some(vm)))
      case Listing(Duplicates(g, keeper, names)) =>
        if names == [] then after == before
        else
          && after == before.(attempted := before.attempted + {Duplicate(names[0])})
          && t == Listing(if ok then Duplicates(g, keeper, names[1..]) else GaveUp)
      case Sweeping(Confirm(g, todo, r)) =>
        && after == before.(attempted := before.attempted + {Cleanup(r.lease, r.instanceId)},
                            cleaned := if ok then before.cleaned + {(r.lease, r.instanceId)} else before.cleaned)
        && t == Sweeping(if ok then Remove(g, todo, r) else Miss(g, todo))
      case Sweeping(Expire(now, todo)) =>
        if todo == [] then after == before && t == Sweeping(Swept)
        else
          && after == before.(attempted := before.attempted + {Expiry(todo[0].lease, todo[0].instanceId)})
          && t == Sweeping(if ok then NoteExpired(now, todo[1..], todo[0]) else Expire(now, todo[1..]))
      case _ => true
  {
    RunStep(ws, acts, cap, maxAge, n + 1);
    hide Run, MoveCall;
  }

  // A rollback removes an unbound record of its id; a poll removes the record
  // of exactly the generation and instance it has cleaned up, at the third miss
  // or later.
  lemma StepRemoves(ws: seq<World>, acts: seq<Action>, cap: nat, maxAge: int, n: nat, tid: nat)
    requires Run(ws, acts, cap, maxAge) && n < |acts| && acts[n].Go? && acts[n].tid == tid && tid in ws[n].threads
    ensures tid in ws[n + 1].threads
    ensures
      var before, after, t := ws[n].ledger.store, ws[n + 1].ledger.store, ws[n + 1].threads[tid];
      match ws[n].threads[tid]
      case Creating(Abandon(id, lease, launched)) =>
        && t == Creating(Returned(id, lease, Failed(launched)))
        && after == (if id in before.records && before.records[id].instanceId == "" then before.(records := before.records - {id}) else before)
      case Sweeping(Remove(g, todo, r)) =>
        && t == Sweeping(Miss(g, todo))
        && var id := r.sandboxId;
           after == if id in before.records && before.records[id].lease == r.lease && before.records[id].instanceId == r.instanceId
                       && before.records[id].missingPolls >= 3
                    then before.(records := before.records - {id}) else before
      case _ => true
  {
    RunStep(ws, acts, cap, maxAge, n + 1);
    hide Run, MoveCall, MoveListing;
  }
}
