// What the interleaved KubeVirt driver guarantees in every run.
module LifecycleSafety {
  import opened Records
  import opened Store
  import opened Fleet
  import opened Transitions
  import opened Reconcile
  import opened KubeWrites
  import opened Lifecycle
  import opened LifecycleInvariant

  lemma {:induction false} RunGrows(ws: seq<World>, acts: seq<Action>, cap: nat, maxAge: int, m: nat, n: nat)
    requires Run(ws, acts, cap, maxAge) && m <= n < |ws|
    ensures Grows(ws[m].ledger, ws[m].hist, ws[n].ledger, ws[n].hist)
    decreases n - m
  {
    hide *;
    if m < n {
      RunStep(ws, acts, cap, maxAge, n);
      RunGrows(ws, acts, cap, maxAge, m, n - 1);
      RunKeeps(ws, acts, cap, maxAge, n - 1);
      StepKeeps(ws[n - 1], acts[n - 1], cap, maxAge);
      GrowsFurther(ws[m], ws[n - 1], ws[n]);
    } else {
      GrowsNot(ws[m]);
    }
  }

  lemma GrowsNot(a: World)
    ensures Grows(a.ledger, a.hist, a.ledger, a.hist)
  {
  }

  lemma GrowsFurther(a: World, b: World, c: World)
    requires Grows(a.ledger, a.hist, b.ledger, b.hist) && Grows(b.ledger, b.hist, c.ledger, c.hist)
    ensures Grows(a.ledger, a.hist, c.ledger, c.hist)
  {
  }

  // ---- Generations and capacity --------------------------------------------------

  lemma LedgerFacts(l: Ledger, cap: nat)
    requires LedgerInv(l, cap)
    ensures forall id :: id in l.store.records ==> 1 <= l.store.records[id].lease <= l.store.nextLease
    ensures forall a, b :: a in l.store.records && b in l.store.records && a != b ==>
              l.store.records[a].lease != l.store.records[b].lease
    ensures forall id :: id in l.store.records ==> l.store.records[id].lease !in l.retired
    ensures |ReservedLive(l)| <= cap && |l.store.records| == l.inserted - l.removed
  {
    assert forall id :: id in l.store.records ==> RecordInv(l, id, l.store.records[id]);
  }

  // In every reachable world leases are distinct and bounded, a generation
  // retired earlier is not back, live reservations fit the capacity, and the
  // number of records is inserts minus removals.
  lemma GenerationsAndCapacity(ws: seq<World>, acts: seq<Action>, cap: nat, maxAge: int, m: nat, n: nat)
    requires Run(ws, acts, cap, maxAge) && m <= n < |ws|
    ensures
      var l := ws[n].ledger;
      && (forall id :: id in l.store.records ==>
            1 <= l.store.records[id].lease <= l.store.nextLease && l.store.records[id].lease !in ws[m].ledger.retired)
      && (forall a, b :: a in l.store.records && b in l.store.records && a != b ==>
            l.store.records[a].lease != l.store.records[b].lease)
      && |ReservedLive(l)| <= cap
      && |l.store.records| == l.inserted - l.removed
  {
    RunKeeps(ws, acts, cap, maxAge, n);
    RunGrows(ws, acts, cap, maxAge, m, n);
    LedgerFacts(ws[n].ledger, cap);
    hide Run, LedgerInv, RecordsOk, HistOk;
  }

  // The generation a thread may write at its next step, for the writes that
  // carry one.
  function WriteLease(t: Thread): Option<nat> {
    match t
    case Creating(Commit(_, lease, _, _)) => Some(lease)
    case Calling(Mark(_, _, todo)) => if todo == [] then None else Some(todo[0].lease)
    case Listing(Write(_, _, rec)) => Some(rec.lease)
    case Sweeping(Miss(_, todo)) => if todo == [] then None else Some(todo[0].lease)
    case Sweeping(Remove(_, _, missed)) => Some(missed.lease)
    case Sweeping(NoteExpired(_, _, rec)) => Some(rec.lease)
    case _ => None
  }

  // The one registry write of such a step.
  function WriteOp(t: Thread, e: Env): Op
    requires WriteLease(t).Some?
  {
    match t
    case Creating(Commit(id, lease, createdAt, vm)) => OpUpdate(id, CommitAccepts(lease), CommitChange(vm, createdAt))
    case Calling(Mark(_, _, todo)) => OpUpdate(todo[0].sandboxId, MarkAccepts(todo[0]), MarkChange(e.at))
    case Listing(Write(_, keeper, rec)) =>
      OpUpdate(keeper.sandboxId, RefreshAccepts(rec), RefreshChange(keeper, Observed(KubeVirt, rec, keeper), e.at))
    case Sweeping(Miss(_, todo)) => OpUpdate(todo[0].sandboxId, SameGeneration(todo[0]), CountMiss())
    case Sweeping(Remove(_, _, missed)) => OpDelete(missed.sandboxId, RemoveAccepts(missed))
    case Sweeping(NoteExpired(_, _, rec)) => OpUpdate(rec.sandboxId, SameGeneration(rec), ActChange("deleting", e.at))
  }

  lemma StepIsWriteOp(l: Ledger, h: History, t: Thread, e: Env, cap: nat, maxAge: int)
    requires WriteLease(t).Some?
    ensures
      var after := Move(l, h, t, e, cap, maxAge).ledger.store.records;
      after == l.store.records || after == ApplyStore(l.store, cap, WriteOp(t, e)).records
  {
  }

  lemma GuardedWrite(l: Ledger, cap: nat, op: Op, lease: nat, k: string)
    requires (op.OpUpdate? && KeepsIdentity(op.change)) || op.OpDelete?
    requires forall r: Record :: op.accept(Redact(r)) ==> r.lease == lease
    requires Lookup(ApplyStore(l.store, cap, op).records, k) != Lookup(l.store.records, k)
    ensures k in l.store.records && l.store.records[k].lease == lease
    ensures
      var after := ApplyStore(l.store, cap, op).records;
      k in after ==> after[k].lease == lease
  {
  }

  lemma WriteOpGuarded(t: Thread, e: Env)
    requires WriteLease(t).Some?
    ensures
      var op := WriteOp(t, e);
      && ((op.OpUpdate? && KeepsIdentity(op.change)) || op.OpDelete?)
      && (forall r: Record :: op.accept(Redact(r)) ==> r.lease == WriteLease(t).value)
  {
  }

  // A commit, a tombstone and every poll write change only the record of the
  // generation they were decided for, and do not move it to another one.
  lemma WritesOwnGeneration(w: World, tid: nat, e: Env, cap: nat, maxAge: int, k: string)
    requires tid in w.threads && WriteLease(w.threads[tid]).Some?
    requires Lookup(Step(w, Go(tid, e), cap, maxAge).ledger.store.records, k) != Lookup(w.ledger.store.records, k)
    ensures k in w.ledger.store.records && w.ledger.store.records[k].lease == WriteLease(w.threads[tid]).value
    ensures
      var after := Step(w, Go(tid, e), cap, maxAge).ledger.store.records;
      k in after ==> after[k].lease == w.ledger.store.records[k].lease
  {
    var t := w.threads[tid];
    hide Move, WriteOp, ApplyStore;
    StepIsWriteOp(w.ledger, w.hist, t, e, cap, maxAge);
    WriteOpGuarded(t, e);
    GuardedWrite(w.ledger, cap, WriteOp(t, e), WriteLease(t).value, k);
  }

  // ---- Nothing tracked is released early ---------------------------------------------

  // A record leaves the registry in two ways only: an unbound one by the
  // rollback of a create for its id, a bound one by poll's guarded delete, after
  // three counted absences of its generation and a cleanup of its instance
  // that returned nil.
  lemma ReleaseIsEarned(ws: seq<World>, acts: seq<Action>, cap: nat, maxAge: int, n: nat, id: string)
    requires Run(ws, acts, cap, maxAge) && n < |acts|
    requires id in ws[n].ledger.store.records && id !in ws[n + 1].ledger.store.records
    ensures acts[n].Go? && acts[n].tid in ws[n].threads
    ensures
      var r, t := ws[n].ledger.store.records[id], ws[n].threads[acts[n].tid];
      if r.Bound() then
        && t.Sweeping? && t.s.Remove? && t.s.missed.sandboxId == id
        && t.s.missed.lease == r.lease && t.s.missed.instanceId == r.instanceId
        && r.missingPolls >= 3 && Misses(ws[n].hist, r.lease) >= 3
        && (r.lease, r.instanceId) in ws[n].hist.cleaned
      else
        t.Creating? && t.c.Abandon? && t.c.id == id
  {
    RunKeeps(ws, acts, cap, maxAge, n);
    var w, a := ws[n], acts[n];
    RunStep(ws, acts, cap, maxAge, n + 1);
    RecordFacts(w.ledger, w.hist, cap, id);
    if a.Go? {
      assert ThreadOk(w.ledger, w.hist, w.threads[a.tid]);
      RemovalThread(w.ledger, w.hist, w.threads[a.tid], a.env, cap, maxAge, id);
    }
  }

  lemma RemovalThread(l: Ledger, h: History, t: Thread, e: Env, cap: nat, maxAge: int, id: string)
    requires ThreadOk(l, h, t)
    requires id in l.store.records && id !in Move(l, h, t, e, cap, maxAge).ledger.store.records
    requires Redact(l.store.records[id]) == l.store.records[id]
    ensures
      var r := l.store.records[id];
      if r.Bound() then
        && t.Sweeping? && t.s.Remove? && t.s.missed.sandboxId == id
        && t.s.missed.lease == r.lease && t.s.missed.instanceId == r.instanceId
        && r.missingPolls >= MISSING_POLL_THRESHOLD
      else
        t.Creating? && t.c.Abandon? && t.c.id == id
  {
    match t
    case Creating(pc) => hide MoveCall, MoveListing, MoveSweep;
    case Calling(pc) => CallsRemoveNothing(l, h, pc, e, cap, id);
    case Listing(pc) => ListingRemovesNothing(l, h, pc, e, cap, maxAge, id);
    case Sweeping(pc) => hide MoveCreate, MoveCall, MoveListing;
  }

  lemma CallsRemoveNothing(l: Ledger, h: History, pc: CallPc, e: Env, cap: nat, id: string)
    requires CallOk(l, h, pc) && id in l.store.records
    ensures id in MoveCall(l, h, pc, e, cap).ledger.store.records
  {
  }

  lemma ListingRemovesNothing(l: Ledger, h: History, pc: ListingPc, e: Env, cap: nat, maxAge: int, id: string)
    requires ListingOk(l, h, pc) && id in l.store.records
    ensures id in MoveListing(l, h, pc, e, cap, maxAge).ledger.store.records
  {
  }

  // Every confirmed cleanup was an earlier poll step whose Terminate returned nil.
  lemma {:induction false} CleanupHappened(
    ws: seq<World>, acts: seq<Action>, cap: nat, maxAge: int, n: nat, lease: nat, instanceId: string)
    requires Run(ws, acts, cap, maxAge) && n < |ws|
    requires (lease, instanceId) in ws[n].hist.cleaned
    ensures exists j :: 0 <= j < n && ConfirmsCleanup(ws[j], acts[j], lease, instanceId)
  {
    if n > 0 {
      RunStep(ws, acts, cap, maxAge, n);
      if (lease, instanceId) in ws[n - 1].hist.cleaned {
        CleanupHappened(ws, acts, cap, maxAge, n - 1, lease, instanceId);
      } else {
        CleanupStep(ws[n - 1], acts[n - 1], cap, maxAge, lease, instanceId);
        assert ConfirmsCleanup(ws[n - 1], acts[n - 1], lease, instanceId);
      }
    }
  }

  ghost predicate ConfirmsCleanup(w: World, a: Action, lease: nat, instanceId: string) {
    && a.Go? && a.tid in w.threads && a.env.ok
    && w.threads[a.tid].Sweeping? && w.threads[a.tid].s.Confirm?
    && w.threads[a.tid].s.missed.lease == lease && w.threads[a.tid].s.missed.instanceId == instanceId
  }

  lemma CleanupStep(w: World, a: Action, cap: nat, maxAge: int, lease: nat, instanceId: string)
    requires (lease, instanceId) !in w.hist.cleaned && (lease, instanceId) in Step(w, a, cap, maxAge).hist.cleaned
    ensures ConfirmsCleanup(w, a, lease, instanceId)
  {
  }

  // ---- Commit or compensate -------------------------------------------------------------

  // This step of the create calls Terminate on the VM it launched, for its own
  // generation.
  ghost predicate Compensates(w: World, a: Action, w': World, tid: nat, id: string, lease: nat, vm: string) {
    && a.Go? && a.tid == tid && tid in w.threads && w.threads[tid] == Creating(Compensate(id, lease, vm))
    && w'.hist.attempted == w.hist.attempted + {Compensation(lease, vm)}
  }

  // Between two worlds of a run this create compensated for its VM.
  ghost predicate CompensatedBetween(
    ws: seq<World>, acts: seq<Action>, m: nat, n: nat, tid: nat, id: string, lease: nat, vm: string)
    requires m <= n < |ws| == |acts| + 1
  {
    exists j :: m <= j < n && Compensates(ws[j], acts[j], ws[j + 1], tid, id, lease, vm)
  }

  // What a create that was about to commit at `m` is doing at `n`.
  ghost predicate AfterLaunch(
    ws: seq<World>, acts: seq<Action>, m: nat, n: nat, tid: nat, id: string, lease: nat, vm: string)
    requires m <= n < |ws| == |acts| + 1
  {
    && tid in ws[n].threads && ws[n].threads[tid].Creating?
    && match ws[n].threads[tid].c
       case Commit(i, l, _, x) => i == id && l == lease && x.id == vm
       case Compensate(i, l, x) => i == id && l == lease && x == vm
       case Abandon(i, l, launched) =>
         i == id && l == lease && launched == Some(vm) && CompensatedBetween(ws, acts, m, n, tid, id, lease, vm)
       case Returned(i, l, outcome) =>
         && i == id && l == lease
         && (outcome == Committed(vm)
             || (outcome == Failed(Some(vm)) && CompensatedBetween(ws, acts, m, n, tid, id, lease, vm)))
       case _ => false
  }

  // How one step moves such a create.
  ghost predicate AfterLaunchMoves(w: World, a: Action, w': World, tid: nat, id: string, lease: nat, vm: string)
    requires tid in w.threads && w.threads[tid].Creating?
  {
    && tid in w'.threads && w'.threads[tid].Creating?
    && var c, c' := w.threads[tid].c, w'.threads[tid].c;
       c' == c || match c
                  case Commit(_, _, _, _) => c' == Compensate(id, lease, vm) || c' == Returned(id, lease, Committed(vm))
                  case Compensate(_, _, _) => c' == Abandon(id, lease, Some(vm)) && Compensates(w, a, w', tid, id, lease, vm)
                  case Abandon(_, _, launched) => c' == Returned(id, lease, Failed(launched))
                  case _ => false
  }

  lemma AfterLaunchStep(w: World, a: Action, cap: nat, maxAge: int, tid: nat, id: string, lease: nat, vm: string)
    requires Enabled(w, a) && tid in w.threads && w.threads[tid].Creating?
    requires
      match w.threads[tid].c
      case Commit(i, l, _, x) => i == id && l == lease && x.id == vm
      case Compensate(i, l, x) => i == id && l == lease && x == vm
      case Abandon(i, l, _) => i == id && l == lease
      case Returned(_, _, _) => true
      case _ => false
    ensures AfterLaunchMoves(w, a, Step(w, a, cap, maxAge), tid, id, lease, vm)
  {
    hide MoveCall, MoveListing, MoveSweep, Apply, Update;
  }

  lemma {:induction false} LaunchedVmIsAccountedFor(
    ws: seq<World>, acts: seq<Action>, cap: nat, maxAge: int, m: nat, n: nat, tid: nat, id: string, lease: nat, vm: Instance,
    createdAt: Time)
    requires Run(ws, acts, cap, maxAge) && m <= n < |ws|
    requires tid in ws[m].threads && ws[m].threads[tid] == Creating(Commit(id, lease, createdAt, vm))
    ensures AfterLaunch(ws, acts, m, n, tid, id, lease, vm.id)
    decreases n - m
  {
    hide Step, Enabled;
    if m < n {
      LaunchedVmIsAccountedFor(ws, acts, cap, maxAge, m, n - 1, tid, id, lease, vm, createdAt);
      RunStep(ws, acts, cap, maxAge, n);
      AfterLaunchStep(ws[n - 1], acts[n - 1], cap, maxAge, tid, id, lease, vm.id);
      AfterLaunchNext(ws, acts, m, n, tid, id, lease, vm.id);
    }
  }

  lemma AfterLaunchNext(ws: seq<World>, acts: seq<Action>, m: nat, n: nat, tid: nat, id: string, lease: nat, vm: string)
    requires m < n < |ws| == |acts| + 1 && AfterLaunch(ws, acts, m, n - 1, tid, id, lease, vm)
    requires AfterLaunchMoves(ws[n - 1], acts[n - 1], ws[n], tid, id, lease, vm)
    ensures AfterLaunch(ws, acts, m, n, tid, id, lease, vm)
  {
    hide Compensates, CompensatedBetween;
    StaysCompensated(ws, acts, m, n, tid, id, lease, vm);
  }

  lemma StaysCompensated(ws: seq<World>, acts: seq<Action>, m: nat, n: nat, tid: nat, id: string, lease: nat, vm: string)
    requires m < n < |ws| == |acts| + 1
    ensures CompensatedBetween(ws, acts, m, n, tid, id, lease, vm) <==>
              || CompensatedBetween(ws, acts, m, n - 1, tid, id, lease, vm)
              || Compensates(ws[n - 1], acts[n - 1], ws[n], tid, id, lease, vm)
  {
    hide Compensates;
  }

  // A finished create whose launch had returned a named VM either returned OK
  // with that VM committed, or returned an error after it called Terminate on
  // that VM itself, since its launch.
  lemma CommitOrCompensate(
    ws: seq<World>, acts: seq<Action>, cap: nat, maxAge: int, m: nat, n: nat, tid: nat)
    requires Run(ws, acts, cap, maxAge) && m <= n < |ws|
    requires tid in ws[m].threads && ws[m].threads[tid].Creating? && ws[m].threads[tid].c.Commit?
    requires tid in ws[n].threads && ws[n].threads[tid].Creating? && ws[n].threads[tid].c.Returned?
    ensures
      var before, after := ws[m].threads[tid].c, ws[n].threads[tid].c;
      && after.id == before.id && after.lease == before.lease
      && (after.outcome.Committed? ==> after.outcome.instanceId == before.vm.id && after.lease in ws[n].hist.committed)
      && (after.outcome.Failed? ==>
            && after.outcome.launched == Some(before.vm.id)
            && CompensatedBetween(ws, acts, m, n, tid, before.id, before.lease, before.vm.id))
  {
    var before := ws[m].threads[tid].c;
    LaunchedVmIsAccountedFor(ws, acts, cap, maxAge, m, n, tid, before.id, before.lease, before.vm, before.createdAt);
    RunKeeps(ws, acts, cap, maxAge, n);
    hide Run, Inv, CompensatedBetween;
    assert ThreadOk(ws[n].ledger, ws[n].hist, ws[n].threads[tid]);
  }

  // Behind every recorded compensation there is an earlier step at which a
  // create of that generation called Terminate on the VM it had launched.
  lemma {:induction false} CompensationHappened(
    ws: seq<World>, acts: seq<Action>, cap: nat, maxAge: int, n: nat, lease: nat, vm: string) returns (tid: nat, id: string)
    requires Run(ws, acts, cap, maxAge) && n < |ws|
    requires Compensation(lease, vm) in ws[n].hist.attempted
    ensures CompensatedBetween(ws, acts, 0, n, tid, id, lease, vm)
  {
    hide Step;
    if n == 0 {
      assert false;
    } else {
      RunStep(ws, acts, cap, maxAge, n);
      if Compensation(lease, vm) in ws[n - 1].hist.attempted {
        tid, id := CompensationHappened(ws, acts, cap, maxAge, n - 1, lease, vm);
        var j :| 0 <= j < n - 1 && Compensates(ws[j], acts[j], ws[j + 1], tid, id, lease, vm);
        assert Compensates(ws[j], acts[j], ws[j + 1], tid, id, lease, vm);
      } else {
        tid, id := CompensationStep(ws[n - 1], acts[n - 1], cap, maxAge, lease, vm);
        assert Compensates(ws[n - 1], acts[n - 1], ws[n], tid, id, lease, vm);
      }
    }
  }

  lemma CompensationStep(w: World, a: Action, cap: nat, maxAge: int, lease: nat, vm: string) returns (tid: nat, id: string)
    requires Compensation(lease, vm) !in w.hist.attempted && Compensation(lease, vm) in Step(w, a, cap, maxAge).hist.attempted
    ensures Compensates(w, a, Step(w, a, cap, maxAge), tid, id, lease, vm)
  {
    tid := a.tid;
    id := w.threads[tid].c.id;
  }

  // The step that records a commit binds the VM in the record of the create's
  // own lease.
  lemma CommitBindsOwnRecord(w: World, tid: nat, e: Env, cap: nat, maxAge: int)
    requires WorldOk(w, cap) && tid in w.threads && w.threads[tid].Creating? && w.threads[tid].c.Commit?
    ensures
      var pc, w' := w.threads[tid].c, Step(w, Go(tid, e), cap, maxAge);
      w'.threads[tid] == Creating(Returned(pc.id, pc.lease, Committed(pc.vm.id)))
      <==>
      pc.lease !in w.ledger.retired && !Refuses(w.ledger.store.records[pc.id].state)
    ensures
      var pc, w' := w.threads[tid].c, Step(w, Go(tid, e), cap, maxAge);
      w'.threads[tid].c.Returned? ==>
        pc.id in w'.ledger.store.records
        && w'.ledger.store.records[pc.id].lease == pc.lease && w'.ledger.store.records[pc.id].instanceId == pc.vm.id
  {
    var pc := w.threads[tid].c;
    assert ThreadOk(w.ledger, w.hist, w.threads[tid]);
    if pc.id in w.ledger.store.records { RecordFacts(w.ledger, w.hist, cap, pc.id); }
    LiveUnlessRetired(w, cap, pc.id, pc.lease);
  }

  lemma LiveUnlessRetired(w: World, cap: nat, id: string, lease: nat)
    requires WorldOk(w, cap) && Owned(w.ledger, lease, id)
    ensures lease !in w.ledger.retired <==> id in w.ledger.store.records && w.ledger.store.records[id].lease == lease
  {
    if lease !in w.ledger.retired {
      assert IsLive(w.ledger, lease);
    } else if id in w.ledger.store.records {
      assert RecordInv(w.ledger, id, w.ledger.store.records[id]);
    }
  }

  // A create whose generation no delete, stop, expiry or tombstone has touched,
  // and which is still in the registry, commits: having been adopted by a poll
  // or a resolve in between does not matter.
  lemma UntaintedCommits(
    ws: seq<World>, acts: seq<Action>, cap: nat, maxAge: int, n: nat)
    requires Run(ws, acts, cap, maxAge) && n < |acts|
    requires acts[n].Go? && acts[n].tid in ws[n].threads && ws[n].threads[acts[n].tid].Creating? && ws[n].threads[acts[n].tid].c.Commit?
    requires ws[n].threads[acts[n].tid].c.lease !in ws[n].hist.tainted
    requires ws[n].threads[acts[n].tid].c.lease !in ws[n].ledger.retired
    ensures
      var tid, pc := acts[n].tid, ws[n].threads[acts[n].tid].c;
      tid in ws[n + 1].threads && ws[n + 1].threads[tid] == Creating(Returned(pc.id, pc.lease, Committed(pc.vm.id)))
  {
    var w, tid := ws[n], acts[n].tid;
    RunKeeps(ws, acts, cap, maxAge, n);
    RunStep(ws, acts, cap, maxAge, n + 1);
    assert ThreadOk(w.ledger, w.hist, w.threads[tid]);
    LiveUnlessRetired(w, cap, w.threads[tid].c.id, w.threads[tid].c.lease);
    RecordFacts(w.ledger, w.hist, cap, w.threads[tid].c.id);
    CommitBindsOwnRecord(w, tid, acts[n].env, cap, maxAge);
    hide Step, Inv;
  }

  // The state a step would adopt from the provider.
  function AdoptedState(t: Thread): Option<string> {
    match t
    case Calling(Insert(_, rec)) => Some(rec.state)
    case Calling(Adopt(_, rec)) => Some(rec.state)
    case Listing(Recover(_, keeper)) => Some(keeper.state)
    case Listing(Write(_, keeper, rec)) => Some(Observed(KubeVirt, rec, keeper))
    case _ => None
  }

  // Adopting a VM retires nothing, and taints nothing unless the provider
  // itself reports one of the driver's refusing states.
  lemma AdoptionKeepsCommit(w: World, tid: nat, e: Env, cap: nat, maxAge: int)
    requires WorldOk(w, cap) && tid in w.threads
    requires AdoptedState(w.threads[tid]).Some? && !Refuses(AdoptedState(w.threads[tid]).value)
    ensures Step(w, Go(tid, e), cap, maxAge).hist.tainted == w.hist.tainted
    ensures Step(w, Go(tid, e), cap, maxAge).ledger.retired == w.ledger.retired
  {
    hide Inv;
  }

  // ---- Tombstones --------------------------------------------------------------------------

  // A create that failed after its launch called Terminate itself.
  predicate FailedWith(t: Thread, id: string, lease: nat, vm: string) {
    t == Creating(Abandon(id, lease, Some(vm))) || t == Creating(Returned(id, lease, Failed(Some(vm))))
  }

  lemma {:induction false} FailureIsOwn(
    ws: seq<World>, acts: seq<Action>, cap: nat, maxAge: int, n: nat, tid: nat, id: string, lease: nat, vm: string)
    requires Run(ws, acts, cap, maxAge) && n < |ws|
    requires tid in ws[n].threads && FailedWith(ws[n].threads[tid], id, lease, vm)
    ensures |ws| == |acts| + 1 && CompensatedBetween(ws, acts, 0, n, tid, id, lease, vm)
  {
    hide Step, Enabled, Compensates, CompensatedBetween;
    if n == 0 {
      assert false;
    } else {
      RunStep(ws, acts, cap, maxAge, n);
      FailedStep(ws[n - 1], acts[n - 1], cap, maxAge, tid, id, lease, vm);
      if FailedWith(ws[n - 1].threads[tid], id, lease, vm) {
        FailureIsOwn(ws, acts, cap, maxAge, n - 1, tid, id, lease, vm);
      }
      StaysCompensated(ws, acts, 0, n, tid, id, lease, vm);
    }
  }

  lemma FailedStep(w: World, a: Action, cap: nat, maxAge: int, tid: nat, id: string, lease: nat, vm: string)
    requires Enabled(w, a) && tid in Step(w, a, cap, maxAge).threads
    requires FailedWith(Step(w, a, cap, maxAge).threads[tid], id, lease, vm)
    ensures tid in w.threads
    ensures FailedWith(w.threads[tid], id, lease, vm) || Compensates(w, a, Step(w, a, cap, maxAge), tid, id, lease, vm)
  {
    hide MoveCall, MoveListing, MoveSweep, Apply, Update;
  }

  // From the moment markLaunchingDeletion has marked a generation, its stored
  // record is an unbound tombstone exactly as long as no poll's listing update
  // has reached it. While none has, its create never returns OK; and when it
  // has returned, the record is gone and that very create had called Terminate
  // on the VM it launched.
  lemma TombstoneHolds(
    ws: seq<World>, acts: seq<Action>, cap: nat, maxAge: int, m: nat, n: nat, lease: nat)
    requires Run(ws, acts, cap, maxAge) && m <= n < |ws| && lease in ws[m].hist.marked
    ensures |ws| == |acts| + 1
    ensures forall id :: id in ws[n].ledger.store.records && ws[n].ledger.store.records[id].lease == lease ==>
              (!ws[n].ledger.store.records[id].Bound() && ws[n].ledger.store.records[id].state == "delete-requested"
               <==> lease !in ws[n].hist.polled)
    ensures lease !in ws[n].hist.polled ==> forall tid :: tid in ws[n].threads && ReturnedFor(ws[n].threads[tid], lease) ==>
              && ws[n].threads[tid].c.outcome.Failed?
              && (ws[n].threads[tid].c.outcome.launched.Some? ==>
                    CompensatedBetween(ws, acts, 0, n, tid, ws[n].threads[tid].c.id, lease, ws[n].threads[tid].c.outcome.launched.value))
              && (forall id :: id in ws[n].ledger.store.records ==> ws[n].ledger.store.records[id].lease != lease)
  {
    RunKeeps(ws, acts, cap, maxAge, n);
    RunGrows(ws, acts, cap, maxAge, m, n);
    hide Step, Enabled, LedgerInv, CompensatedBetween;
    var w := ws[n];
    assert lease in w.hist.marked;
    forall id | id in w.ledger.store.records && w.ledger.store.records[id].lease == lease
      ensures !w.ledger.store.records[id].Bound() && w.ledger.store.records[id].state == "delete-requested" <==> lease !in w.hist.polled
    {
      assert RecOk(w.hist, w.ledger.store.records[id]);
    }
    forall tid | tid in w.threads && ReturnedFor(w.threads[tid], lease) && lease !in w.hist.polled
      ensures w.threads[tid].c.outcome.Failed?
      ensures w.threads[tid].c.outcome.launched.Some? ==>
                CompensatedBetween(ws, acts, 0, n, tid, w.threads[tid].c.id, lease, w.threads[tid].c.outcome.launched.value)
      ensures forall id :: id in w.ledger.store.records ==> w.ledger.store.records[id].lease != lease
    {
      MarkedReturn(w, cap, tid, lease);
      if w.threads[tid].c.outcome.launched.Some? {
        FailureIsOwn(ws, acts, cap, maxAge, n, tid, w.threads[tid].c.id, lease, w.threads[tid].c.outcome.launched.value);
      }
    }
  }

  lemma MarkedReturn(w: World, cap: nat, tid: nat, lease: nat)
    requires WorldOk(w, cap) && lease in w.hist.marked && lease !in w.hist.polled
    requires tid in w.threads && ReturnedFor(w.threads[tid], lease)
    ensures w.threads[tid].c.outcome.Failed?
    ensures forall id :: id in w.ledger.store.records ==> w.ledger.store.records[id].lease != lease
  {
    assert ThreadOk(w.ledger, w.hist, w.threads[tid]);
    forall id | id in w.ledger.store.records ensures w.ledger.store.records[id].lease != lease {
      assert RecOk(w.hist, w.ledger.store.records[id]);
    }
  }

  // What ends a tombstone: the write of a poll that decided on this generation
  // and still finds it.
  lemma PolledRecorded(w: World, tid: nat, e: Env, cap: nat, maxAge: int, lease: nat)
    requires tid in w.threads && lease !in w.hist.polled
    ensures lease in Step(w, Go(tid, e), cap, maxAge).hist.polled <==>
              && w.threads[tid].Listing? && w.threads[tid].p.Write? && w.threads[tid].p.rec.lease == lease
              && Accepted(w.ledger, w.threads[tid].p.keeper.sandboxId, RefreshAccepts(w.threads[tid].p.rec))
  {
    hide Apply, Update, Accepted;
  }

  // A marked create commits after all exactly if its record is still stored, a
  // poll's update has reached it, and it shows no refusing state since.
  lemma MarkedCommits(ws: seq<World>, acts: seq<Action>, cap: nat, maxAge: int, n: nat)
    requires Run(ws, acts, cap, maxAge) && n < |acts|
    requires acts[n].Go? && acts[n].tid in ws[n].threads && ws[n].threads[acts[n].tid].Creating? && ws[n].threads[acts[n].tid].c.Commit?
    requires ws[n].threads[acts[n].tid].c.lease in ws[n].hist.marked
    ensures
      var tid, pc := acts[n].tid, ws[n].threads[acts[n].tid].c;
      (tid in ws[n + 1].threads && ws[n + 1].threads[tid] == Creating(Returned(pc.id, pc.lease, Committed(pc.vm.id))))
      <==>
      && pc.id in ws[n].ledger.store.records && ws[n].ledger.store.records[pc.id].lease == pc.lease
      && pc.lease in ws[n].hist.polled && !Refuses(ws[n].ledger.store.records[pc.id].state)
  {
    var w, tid := ws[n], acts[n].tid;
    RunKeeps(ws, acts, cap, maxAge, n);
    RunStep(ws, acts, cap, maxAge, n + 1);
    assert ThreadOk(w.ledger, w.hist, w.threads[tid]);
    LiveUnlessRetired(w, cap, w.threads[tid].c.id, w.threads[tid].c.lease);
    CommitBindsOwnRecord(w, tid, acts[n].env, cap, maxAge);
    hide Step, Run;
    if w.threads[tid].c.lease !in w.ledger.retired { RecordFacts(w.ledger, w.hist, cap, w.threads[tid].c.id); }
    hide Inv;
  }

  predicate ReturnedFor(t: Thread, lease: nat) {
    t.Creating? && t.c.Returned? && t.c.lease == lease
  }

  // A successful mark is what puts a generation among the marked.
  lemma MarkRecorded(w: World, tid: nat, e: Env, cap: nat, maxAge: int, lease: nat)
    requires tid in w.threads
    requires lease in Step(w, Go(tid, e), cap, maxAge).hist.marked && lease !in w.hist.marked
    ensures w.threads[tid].Calling? && w.threads[tid].r.Mark? && w.threads[tid].r.todo != []
    ensures
      var rec := w.threads[tid].r.todo[0];
      rec.lease == lease && Accepted(w.ledger, rec.sandboxId, MarkAccepts(rec))
  {
  }

  // ---- Rollbacks across generations -----------------------------------------------------------

  // Rollback takes only an id. It removes a record of another generation
  // exactly when its own generation was retired and the id has been reserved
  // again since, still unbound.
  lemma RollbackAcrossGenerations(w: World, tid: nat, e: Env, cap: nat, maxAge: int)
    requires WorldOk(w, cap) && tid in w.threads && w.threads[tid].Creating? && w.threads[tid].c.Abandon?
    ensures
      var pc, before, after := w.threads[tid].c, w.ledger.store.records, Step(w, Go(tid, e), cap, maxAge).ledger.store.records;
      (exists id :: id in before && id !in after && before[id].lease != pc.lease)
      <==>
      (pc.lease in w.ledger.retired && pc.id in before && !before[pc.id].Bound())
  {
    var pc := w.threads[tid].c;
    assert ThreadOk(w.ledger, w.hist, w.threads[tid]);
    LiveUnlessRetired(w, cap, pc.id, pc.lease);
    hide Inv;
    var before, after := w.ledger.store.records, Step(w, Go(tid, e), cap, maxAge).ledger.store.records;
    if pc.lease in w.ledger.retired && pc.id in before && !before[pc.id].Bound() {
      assert pc.id in before && pc.id !in after && before[pc.id].lease != pc.lease;
    }
  }

  // ---- Miss counters outside polls ----------------------------------------------------------

  // Creates and calls leave every miss counter as it is, or start a record at 0.
  lemma CallStepKeepsCounters(w: World, tid: nat, e: Env, cap: nat, maxAge: int)
    requires WorldOk(w, cap) && tid in w.threads && (w.threads[tid].Creating? || w.threads[tid].Calling?)
    ensures CountersKept(w.ledger.store.records, Step(w, Go(tid, e), cap, maxAge).ledger.store.records)
  {
    hide Inv, CountersKept, MoveCreate, MoveCall, MoveListing, MoveSweep, CreateOk, CallOk;
    assert ThreadOk(w.ledger, w.hist, w.threads[tid]);
    match w.threads[tid] {
      case Creating(pc) => CreateKeepsCounters(w.ledger, w.hist, pc, e, cap);
      case Calling(pc) => CallKeepsCounters(w.ledger, w.hist, pc, e, cap);
      case _ =>
    }
  }

  lemma CreateKeepsCounters(l: Ledger, h: History, pc: CreatePc, e: Env, cap: nat)
    requires CreateOk(l, h, pc)
    ensures CountersKept(l.store.records, MoveCreate(l, h, pc, e, cap).ledger.store.records)
  {
  }

  lemma CallKeepsCounters(l: Ledger, h: History, pc: CallPc, e: Env, cap: nat)
    requires CallOk(l, h, pc)
    ensures CountersKept(l.store.records, MoveCall(l, h, pc, e, cap).ledger.store.records)
  {
  }

  // So whatever creates and calls do between two polls is one round of calls
  // for the miss counters.
  lemma {:induction false} CallsAreARound(ws: seq<World>, acts: seq<Action>, cap: nat, maxAge: int, m: nat, n: nat)
    requires Run(ws, acts, cap, maxAge) && m <= n < |ws|
    requires forall j :: m <= j < n && acts[j].Go? && acts[j].tid in ws[j].threads ==>
               ws[j].threads[acts[j].tid].Creating? || ws[j].threads[acts[j].tid].Calling?
    ensures RoundRel(KubeVirt, ws[m].ledger.store.records, ws[n].ledger.store.records, Calls, maxAge)
    decreases n
  {
    hide Step, CountersKept, WorldOk;
    if m == n {
      CountersKeptSelf(ws[m].ledger.store.records);
    } else {
      CallsAreARound(ws, acts, cap, maxAge, m, n - 1);
      RunStep(ws, acts, cap, maxAge, n);
      RunKeeps(ws, acts, cap, maxAge, n - 1);
      CallActionKeepsCounters(ws[n - 1], acts[n - 1], cap, maxAge);
      CountersKeptTrans(ws[m].ledger.store.records, ws[n - 1].ledger.store.records, ws[n].ledger.store.records);
    }
  }

  lemma CallActionKeepsCounters(w: World, a: Action, cap: nat, maxAge: int)
    requires WorldOk(w, cap) && Enabled(w, a)
    requires a.Go? ==> w.threads[a.tid].Creating? || w.threads[a.tid].Calling?
    ensures CountersKept(w.ledger.store.records, Step(w, a, cap, maxAge).ledger.store.records)
  {
    hide Inv, CountersKept, Move, WorldOk;
    match a
    case Begin(_, _) => CountersKeptSelf(w.ledger.store.records);
    case Go(tid, e) => CallStepKeepsCounters(w, tid, e, cap, maxAge);
  }

  lemma CountersKeptSelf(r: map<string, Record>)
    ensures CountersKept(r, r)
  {
  }
}
