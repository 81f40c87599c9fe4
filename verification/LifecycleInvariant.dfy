// What every step of every thread keeps, in every interleaving.
module LifecycleInvariant {
  import opened Records
  import opened Store
  import opened Fleet
  import opened Transitions
  import opened Reconcile
  import opened KubeWrites
  import opened Lifecycle

  ghost predicate Owned(l: Ledger, lease: nat, id: string) {
    lease in l.owner && l.owner[lease] == id
  }

  // A record against the history of its own generation.
  ghost predicate RecOk(h: History, r: Record) {
    && (Refuses(r.state) ==> r.lease in h.tainted)
    && r.missingPolls <= Misses(h, r.lease)
    && (r.lease in h.settled ==> r.Bound())
    && (r.lease in h.polled ==> r.Bound())
    && (r.lease in h.marked && r.lease !in h.polled ==> !r.Bound() && r.state == "delete-requested")
  }

  ghost predicate HistOk(l: Ledger, h: History) {
    && h.misses.Keys <= l.owner.Keys
    && h.marked <= l.owner.Keys && h.polled <= l.owner.Keys
    && h.committed <= h.settled <= l.owner.Keys
    && h.tainted <= l.owner.Keys
    && h.committed * h.marked <= h.polled
    && (forall p :: p in h.cleaned ==> Misses(h, p.0) >= MISSING_POLL_THRESHOLD)
  }

  ghost predicate RecordsOk(l: Ledger, h: History) {
    forall id :: id in l.store.records ==> RecOk(h, l.store.records[id])
  }

  ghost predicate Inv(l: Ledger, h: History, cap: nat) {
    LedgerInv(l, cap) && RecordsOk(l, h) && HistOk(l, h)
  }

  // A snapshot of a record some thread still holds.
  ghost predicate SnapOk(l: Ledger, h: History, r: Record) {
    Owned(l, r.lease, r.sandboxId) && (Refuses(r.state) ==> r.lease in h.tainted)
  }

  ghost predicate SnapsOk(l: Ledger, h: History, todo: seq<Record>) {
    forall r :: r in todo ==> SnapOk(l, h, r)
  }

  ghost predicate BoundSnapsOk(l: Ledger, h: History, todo: seq<Record>) {
    forall r :: r in todo ==> SnapOk(l, h, r) && r.Bound()
  }

  ghost predicate CreateOk(l: Ledger, h: History, pc: CreatePc) {
    match pc
    case Reserve(rec) =>
      && !rec.Bound() && rec.state == "launching" && rec.missingPolls == 0 && rec.sandboxId != ""
      && rec.spec.Some? && rec.lastStatus == Some(Status(rec.name, "", "Pending", rec.createdAt))
    case Launch(id, lease, _) => Owned(l, lease, id)
    case Commit(id, lease, _, vm) => Owned(l, lease, id) && vm.id != ""
    case Compensate(id, lease, _) => Owned(l, lease, id)
    case Abandon(id, lease, launched) =>
      Owned(l, lease, id) && (launched.Some? ==> Compensation(lease, launched.value) in h.attempted)
    case Returned(id, lease, outcome) =>
      && Owned(l, lease, id) && lease in h.settled
      && (outcome.Committed? ==> lease in h.committed)
      && (outcome.Failed? && outcome.launched.Some? ==> Compensation(lease, outcome.launched.value) in h.attempted)
    case Refused => true
  }

  ghost predicate CallOk(l: Ledger, h: History, pc: CallPc) {
    match pc
    case Mark(_, _, todo) => SnapsOk(l, h, todo)
    case Insert(_, rec) => rec.Bound() && rec.lease == 0 && rec.missingPolls == 0
    case Adopt(_, rec) => rec.Bound()
    case FindAgain(_, rec) => rec.Bound()
    case Act(intent, rec) => rec.Bound() && intent != Get
    case Note(intent, rec) => rec.Bound() && intent != Get
    case _ => true
  }

  ghost predicate NamedVMs(s: seq<Instance>) {
    forall x :: x in s ==> x.id != ""
  }

  ghost predicate GroupOk(g: Groups, keeper: Instance) {
    NamedVMs(g.listing) && keeper.id != "" && !IsTerminal(keeper.state)
  }

  ghost predicate ListingOk(l: Ledger, h: History, pc: ListingPc) {
    match pc
    case NextGroup(g) => NamedVMs(g.listing)
    case Duplicates(g, keeper, _) => GroupOk(g, keeper)
    case Terminal(_, _) => false
    case Read(g, keeper) => GroupOk(g, keeper)
    case Recover(g, keeper) => GroupOk(g, keeper)
    case Write(g, keeper, rec) => GroupOk(g, keeper) && SnapOk(l, h, rec) && rec.sandboxId == keeper.sandboxId
    case _ => true
  }

  ghost predicate MissedOk(l: Ledger, h: History, missed: Record) {
    && SnapOk(l, h, missed) && missed.Bound()
    && MISSING_POLL_THRESHOLD <= missed.missingPolls <= Misses(h, missed.lease)
  }

  ghost predicate SweepOk(l: Ledger, h: History, pc: SweepPc) {
    match pc
    case Miss(_, todo) => BoundSnapsOk(l, h, todo)
    case Confirm(_, todo, missed) => BoundSnapsOk(l, h, todo) && MissedOk(l, h, missed)
    case Remove(_, todo, missed) =>
      BoundSnapsOk(l, h, todo) && MissedOk(l, h, missed) && (missed.lease, missed.instanceId) in h.cleaned
    case Expire(_, todo) => BoundSnapsOk(l, h, todo)
    case NoteExpired(_, todo, rec) => BoundSnapsOk(l, h, todo) && SnapOk(l, h, rec) && rec.Bound()
    case _ => true
  }

  ghost predicate ThreadOk(l: Ledger, h: History, t: Thread) {
    match t
    case Creating(pc) => CreateOk(l, h, pc)
    case Calling(pc) => CallOk(l, h, pc)
    case Listing(pc) => ListingOk(l, h, pc)
    case Sweeping(pc) => SweepOk(l, h, pc)
  }

  // History only accumulates, and generations keep their owner.
  ghost predicate Grows(l: Ledger, h: History, l': Ledger, h': History) {
    && (forall x :: x in l.owner ==> x in l'.owner && l'.owner[x] == l.owner[x])
    && l.retired <= l'.retired
    && h.attempted <= h'.attempted
    && (forall x :: Misses(h, x) <= Misses(h', x))
    && h.cleaned <= h'.cleaned && h.marked <= h'.marked && h.polled <= h'.polled
    && h.committed <= h'.committed && h.settled <= h'.settled && h.tainted <= h'.tainted
  }

  ghost predicate Advances(l: Ledger, h: History, l': Ledger, h': History, cap: nat) {
    Inv(l', h', cap) && Grows(l, h, l', h')
  }

  lemma ThreadStaysOk(l: Ledger, h: History, l': Ledger, h': History, t: Thread)
    requires ThreadOk(l, h, t) && Grows(l, h, l', h')
    ensures ThreadOk(l', h', t)
  {
  }

  // ---- Registry writes against the history ------------------------------------

  // Two histories that differ at most on one generation.
  ghost predicate OnlyAbout(h: History, h': History, x: nat) {
    && (forall y :: y != x ==> (y in h'.marked <==> y in h.marked) && (y in h'.polled <==> y in h.polled))
    && (forall y :: y != x ==> (y in h'.settled <==> y in h.settled))
    && (forall y :: y != x ==> (y in h'.tainted <==> y in h.tainted))
    && (forall y :: y != x ==> Misses(h', y) == Misses(h, y))
  }

  lemma RecordFacts(l: Ledger, h: History, cap: nat, id: string)
    requires Inv(l, h, cap) && id in l.store.records
    ensures
      var r := l.store.records[id];
      RecOk(h, r) && Redact(r) == r && r.sandboxId == id && Owned(l, r.lease, id)
  {
    assert RecordInv(l, id, l.store.records[id]);
  }

  lemma UpdateKeeps(l: Ledger, h: History, h': History, cap: nat, id: string, accept: Record -> bool, change: Record -> Record)
    requires Inv(l, h, cap) && KeepsIdentity(change) && Accepted(l, id, accept)
    requires OnlyAbout(h, h', l.store.records[id].lease) && RecOk(h', Redact(change(l.store.records[id])))
    requires HistOk(l, h')
    ensures
      var l' := Update(l, cap, id, accept, change);
      && Inv(l', h', cap)
      && l'.owner == l.owner && l'.retired == l.retired
  {
    var op := OpUpdate(id, accept, change);
    ApplyKeepsLeases(l, cap, op);
    ApplyKeepsCounts(l, cap, op);
    var l' := Update(l, cap, id, accept, change);
    forall k | k in l'.store.records ensures RecOk(h', l'.store.records[k]) {
      if k != id {
        assert RecordInv(l, k, l.store.records[k]) && RecordInv(l, id, l.store.records[id]);
        assert RecOk(h, l.store.records[k]);
      }
    }
  }

  predicate Inserts(l: Ledger, cap: nat, op: Op) {
    && ((op.OpAdd? && op.rec.lease == 0) || op.OpReserve?)
    && Key(op) !in l.store.records && Key(op) in ApplyStore(l.store, cap, op).records
  }

  lemma InsertShape(l: Ledger, cap: nat, op: Op)
    requires Inserts(l, cap, op)
    ensures
      var l', n := Apply(l, cap, op), l.store.nextLease + 1;
      && l'.store == Store(l.store.records[Key(op) := Redact(op.rec.(lease := n))], n)
      && l'.owner == l.owner[n := Key(op)] && l'.retired == l.retired
  {
  }

  // A generation that has not been issued has no history.
  lemma FreshLease(l: Ledger, h: History, cap: nat)
    requires Inv(l, h, cap)
    ensures
      var n := l.store.nextLease + 1;
      n !in l.owner && Misses(h, n) == 0
      && n !in h.marked && n !in h.polled && n !in h.settled && n !in h.tainted
    ensures forall k :: k in l.store.records ==> l.store.records[k].lease <= l.store.nextLease
  {
    forall k | k in l.store.records ensures l.store.records[k].lease <= l.store.nextLease {
      assert RecordInv(l, k, l.store.records[k]);
    }
  }

  lemma InsertedRecordsOk(l: Ledger, h: History, cap: nat, op: Op)
    requires Inv(l, h, cap) && Inserts(l, cap, op)
    requires op.rec.missingPolls == 0
    ensures RecordsOk(Apply(l, cap, op), Taint(h, l.store.nextLease + 1, op.rec.state))
    ensures HistOk(Apply(l, cap, op), Taint(h, l.store.nextLease + 1, op.rec.state))
  {
    InsertShape(l, cap, op);
    FreshLease(l, h, cap);
    hide LedgerInv, Apply, Inserts;
  }

  // The registry's own invariant, step by step.
  lemma LedgerKeeps(l: Ledger, cap: nat, op: Op)
    requires LedgerInv(l, cap) && Admissible(op)
    ensures LedgerInv(Apply(l, cap, op), cap)
  {
    ApplyKeepsLeases(l, cap, op);
    ApplyKeepsCounts(l, cap, op);
    hide LeaseInv, CountInv;
  }

  // Inserting a fresh generation, with at most a taint of its own.
  lemma InsertAdvances(l: Ledger, h: History, cap: nat, op: Op)
    requires Inv(l, h, cap) && Inserts(l, cap, op)
    requires op.rec.missingPolls == 0
    ensures
      var l', h' := Apply(l, cap, op), Taint(h, l.store.nextLease + 1, op.rec.state);
      Advances(l, h, l', h', cap) && Owned(l', l.store.nextLease + 1, Key(op))
  {
    LedgerKeeps(l, cap, op);
    InsertShape(l, cap, op);
    FreshLease(l, h, cap);
    InsertedRecordsOk(l, h, cap, op);
    InsertGrows(l, h, Apply(l, cap, op), Taint(h, l.store.nextLease + 1, op.rec.state), l.store.nextLease + 1, Key(op));
    hide *;
  }

  lemma InsertGrows(l: Ledger, h: History, l': Ledger, h': History, n: nat, id: string)
    requires n !in l.owner && l'.owner == l.owner[n := id] && l'.retired == l.retired
    requires h' == h.(tainted := h'.tainted) && h.tainted <= h'.tainted
    ensures Grows(l, h, l', h') && Owned(l', n, id)
  {
  }

  lemma RemoveAdvances(l: Ledger, h: History, cap: nat, op: Op)
    requires Inv(l, h, cap) && (op.OpRollback? || op.OpDelete?)
    ensures Advances(l, h, Apply(l, cap, op), h, cap)
    ensures Apply(l, cap, op).owner == l.owner
  {
    LedgerKeeps(l, cap, op);
    RemoveShape(l, cap, op);
    Shrinks(l, Apply(l, cap, op), h, cap);
    hide *;
  }

  // A ledger that only lost records.
  lemma Shrinks(l: Ledger, l': Ledger, h: History, cap: nat)
    requires Inv(l, h, cap) && LedgerInv(l', cap)
    requires l'.owner == l.owner && l.retired <= l'.retired
    requires forall id :: id in l'.store.records ==> id in l.store.records && l'.store.records[id] == l.store.records[id]
    ensures Advances(l, h, l', h, cap)
  {
    hide LedgerInv, RecOk;
  }

  lemma RemoveShape(l: Ledger, cap: nat, op: Op)
    requires op.OpRollback? || op.OpDelete?
    ensures
      var l' := Apply(l, cap, op);
      && l'.owner == l.owner && l.retired <= l'.retired && l'.reserved == l.reserved
      && l'.store.nextLease == l.store.nextLease
      && (forall id :: id in l'.store.records ==> id in l.store.records && l'.store.records[id] == l.store.records[id])
  {
  }

  // Moves that touch only the attempts or the confirmed cleanups.
  lemma QuietAdvances(l: Ledger, h: History, h': History, cap: nat)
    requires Inv(l, h, cap)
    requires h' == h.(attempted := h'.attempted, cleaned := h'.cleaned)
    requires h.attempted <= h'.attempted && h.cleaned <= h'.cleaned
    requires forall p :: p in h'.cleaned ==> Misses(h, p.0) >= MISSING_POLL_THRESHOLD
    ensures Advances(l, h, l, h', cap)
  {
    hide LedgerInv;
    forall id | id in l.store.records ensures RecOk(h', l.store.records[id]) {
      assert RecOk(h, l.store.records[id]);
    }
  }

  lemma SnapshotsOk(l: Ledger, h: History, cap: nat)
    requires Inv(l, h, cap)
    ensures forall r :: r in Snapshots(l.store.records) ==> SnapOk(l, h, r)
  {
    forall r | r in Snapshots(l.store.records) ensures SnapOk(l, h, r) {
      var id :| id in l.store.records && r == Redact(l.store.records[id]);
      assert RecordInv(l, id, l.store.records[id]);
      assert RecOk(h, l.store.records[id]);
    }
  }

  // ---- CreateSandbox --------------------------------------------------------------

  ghost predicate CreateKept(l: Ledger, h: History, o: Out<CreatePc>, cap: nat) {
    Advances(l, h, o.ledger, o.hist, cap) && CreateOk(o.ledger, o.hist, o.pc)
  }

  lemma CreateKeeps(l: Ledger, h: History, pc: CreatePc, e: Env, cap: nat)
    requires Inv(l, h, cap) && CreateOk(l, h, pc)
    ensures CreateKept(l, h, MoveCreate(l, h, pc, e, cap), cap)
  {
    hide *;
    if pc.Reserve? {
      ReserveKeeps(l, h, pc, e, cap);
    } else if pc.Commit? {
      CommitKeeps(l, h, pc, e, cap);
    } else if pc.Abandon? {
      AbandonKeeps(l, h, pc, e, cap);
    } else {
      CreateQuietKeeps(l, h, pc, e, cap);
    }
  }

  lemma ReserveKeeps(l: Ledger, h: History, pc: CreatePc, e: Env, cap: nat)
    requires pc.Reserve? && Inv(l, h, cap) && CreateOk(l, h, pc)
    ensures CreateKept(l, h, MoveCreate(l, h, pc, e, cap), cap)
  {
    if ReserveWithLease(l.store, cap, pc.rec).1.Reserved? {
      InsertAdvances(l, h, cap, OpReserve(pc.rec));
    } else {
      QuietAdvances(l, h, h, cap);
    }
    hide Inv, Grows, Apply;
  }

  lemma CommitKeeps(l: Ledger, h: History, pc: CreatePc, e: Env, cap: nat)
    requires pc.Commit? && Inv(l, h, cap) && CreateOk(l, h, pc)
    ensures CreateKept(l, h, MoveCreate(l, h, pc, e, cap), cap)
  {
    hide LedgerInv, Apply, Update;
    var o, id := MoveCreate(l, h, pc, e, cap), pc.id;
    if Accepted(l, id, CommitAccepts(pc.lease)) {
      RecordFacts(l, h, cap, id);
      UpdateKeeps(l, h, o.hist, cap, id, CommitAccepts(pc.lease), CommitChange(pc.vm, pc.createdAt));
    } else {
      QuietAdvances(l, h, h, cap);
    }
  }

  // After a rollback no unbound record of the create's generation is left.
  lemma RollbackSettles(l: Ledger, h: History, cap: nat, id: string, lease: nat)
    requires Inv(l, h, cap) && Owned(l, lease, id)
    ensures
      var l' := Apply(l, cap, OpRollback(id));
      RecordsOk(l', h.(settled := h.settled + {lease})) && LedgerInv(l', cap)
  {
    var l', h' := Apply(l, cap, OpRollback(id)), h.(settled := h.settled + {lease});
    RemoveAdvances(l, h, cap, OpRollback(id));
    forall k | k in l'.store.records ensures RecOk(h', l'.store.records[k]) {
      assert RecordInv(l', k, l'.store.records[k]) && RecOk(h, l'.store.records[k]);
    }
  }

  lemma AbandonKeeps(l: Ledger, h: History, pc: CreatePc, e: Env, cap: nat)
    requires pc.Abandon? && Inv(l, h, cap) && CreateOk(l, h, pc)
    ensures CreateKept(l, h, MoveCreate(l, h, pc, e, cap), cap)
  {
    hide LedgerInv, Apply, RecordsOk;
    RemoveAdvances(l, h, cap, OpRollback(pc.id));
    RollbackSettles(l, h, cap, pc.id, pc.lease);
  }

  lemma CreateQuietKeeps(l: Ledger, h: History, pc: CreatePc, e: Env, cap: nat)
    requires !pc.Reserve? && !pc.Commit? && !pc.Abandon?
    requires Inv(l, h, cap) && CreateOk(l, h, pc)
    ensures CreateKept(l, h, MoveCreate(l, h, pc, e, cap), cap)
  {
    hide LedgerInv, RecordsOk;
    QuietAdvances(l, h, MoveCreate(l, h, pc, e, cap).hist, cap);
  }

  // ---- GetSandbox, StopSandbox, DeleteSandbox ---------------------------------------

  ghost predicate CallKept(l: Ledger, h: History, o: Out<CallPc>, cap: nat) {
    Advances(l, h, o.ledger, o.hist, cap) && CallOk(o.ledger, o.hist, o.pc)
  }

  lemma CallKeeps(l: Ledger, h: History, pc: CallPc, e: Env, cap: nat)
    requires Inv(l, h, cap) && CallOk(l, h, pc)
    ensures CallKept(l, h, MoveCall(l, h, pc, e, cap), cap)
  {
    hide *;
    if pc.Mark? {
      MarkKeeps(l, h, pc, e, cap);
    } else if pc.Insert? {
      InsertKeeps(l, h, pc, e, cap);
    } else if pc.Adopt? {
      AdoptKeeps(l, h, pc, e, cap);
    } else if pc.Note? {
      NoteKeeps(l, h, pc, e, cap);
    } else {
      CallQuietKeeps(l, h, pc, e, cap);
    }
  }

  lemma MarkKeeps(l: Ledger, h: History, pc: CallPc, e: Env, cap: nat)
    requires pc.Mark? && Inv(l, h, cap) && CallOk(l, h, pc)
    ensures CallKept(l, h, MoveCall(l, h, pc, e, cap), cap)
  {
    hide LedgerInv, Apply, Update;
    var todo, o := pc.todo, MoveCall(l, h, pc, e, cap);
    if todo != [] && Accepted(l, todo[0].sandboxId, MarkAccepts(todo[0])) {
      RecordFacts(l, h, cap, todo[0].sandboxId);
      UpdateKeeps(l, h, o.hist, cap, todo[0].sandboxId, MarkAccepts(todo[0]), MarkChange(e.at));
    } else {
      QuietAdvances(l, h, h, cap);
    }
  }

  lemma InsertKeeps(l: Ledger, h: History, pc: CallPc, e: Env, cap: nat)
    requires pc.Insert? && Inv(l, h, cap) && CallOk(l, h, pc)
    ensures CallKept(l, h, MoveCall(l, h, pc, e, cap), cap)
  {
    hide LedgerInv, RecordsOk;
    if pc.rec.sandboxId in l.store.records {
      QuietAdvances(l, h, h, cap);
    } else {
      hide Inv, HistOk;
      assert Inserts(l, cap, OpAdd(pc.rec));
      InsertAdvances(l, h, cap, OpAdd(pc.rec));
    }
    hide Advances, Inv, Apply, Taint;
  }

  lemma AdoptKeeps(l: Ledger, h: History, pc: CallPc, e: Env, cap: nat)
    requires pc.Adopt? && Inv(l, h, cap) && CallOk(l, h, pc)
    ensures CallKept(l, h, MoveCall(l, h, pc, e, cap), cap)
  {
    hide LedgerInv, Apply, Update;
    var rec := pc.rec;
    if Accepted(l, rec.sandboxId, AdoptAccepts()) {
      RecordFacts(l, h, cap, rec.sandboxId);
      UpdateKeeps(l, h, MoveCall(l, h, pc, e, cap).hist, cap, rec.sandboxId, AdoptAccepts(), AdoptChange(rec));
    } else {
      QuietAdvances(l, h, h, cap);
    }
  }

  lemma NoteKeeps(l: Ledger, h: History, pc: CallPc, e: Env, cap: nat)
    requires pc.Note? && Inv(l, h, cap) && CallOk(l, h, pc)
    ensures CallKept(l, h, MoveCall(l, h, pc, e, cap), cap)
  {
    hide LedgerInv, Apply, Update;
    var rec := pc.rec;
    if Accepted(l, rec.sandboxId, ActAccepts(rec)) {
      RecordFacts(l, h, cap, rec.sandboxId);
      UpdateKeeps(l, h, MoveCall(l, h, pc, e, cap).hist, cap, rec.sandboxId, ActAccepts(rec), ActChange(ActState(pc.intent), e.at));
    } else {
      QuietAdvances(l, h, h, cap);
    }
  }

  lemma FirstLive(listing: seq<Instance>)
    ensures Live(listing) != [] ==> Live(listing)[0] in listing && !IsTerminal(Live(listing)[0].state)
  {
    LiveMembers(listing);
    if Live(listing) != [] { assert Live(listing)[0] in Live(listing); }
  }

  lemma CallQuietKeeps(l: Ledger, h: History, pc: CallPc, e: Env, cap: nat)
    requires !pc.Mark? && !pc.Insert? && !pc.Adopt? && !pc.Note?
    requires Inv(l, h, cap) && CallOk(l, h, pc)
    ensures CallKept(l, h, MoveCall(l, h, pc, e, cap), cap)
  {
    hide LedgerInv, RecordsOk, SnapOk, Live;
    SnapshotsOk(l, h, cap);
    FirstLive(e.listing);
    QuietAdvances(l, h, MoveCall(l, h, pc, e, cap).hist, cap);
  }

  // ---- poll, the listing loop ---------------------------------------------------------

  ghost predicate ListingKept(l: Ledger, h: History, o: Out<ListingPc>, cap: nat) {
    Advances(l, h, o.ledger, o.hist, cap) && ListingOk(o.ledger, o.hist, o.pc)
  }

  lemma NeverTerminal(l: Ledger, h: History, pc: ListingPc)
    requires ListingOk(l, h, pc)
    ensures !pc.Terminal?
  {
  }

  lemma ListingKeeps(l: Ledger, h: History, pc: ListingPc, e: Env, cap: nat, maxAge: int)
    requires Inv(l, h, cap) && ListingOk(l, h, pc)
    ensures ListingKept(l, h, MoveListing(l, h, pc, e, cap, maxAge), cap)
  {
    hide *;
    NeverTerminal(l, h, pc);
    if pc.NextGroup? {
      NextGroupKeeps(l, h, pc, e, cap, maxAge);
    } else if pc.Read? {
      ReadKeeps(l, h, pc, e, cap, maxAge);
    } else if pc.Recover? {
      RecoverKeeps(l, h, pc, e, cap, maxAge);
    } else if pc.Write? {
      WriteKeeps(l, h, pc, e, cap, maxAge);
    } else {
      ListingQuietKeeps(l, h, pc, e, cap, maxAge);
    }
  }

  lemma KeeperLive(sorted: seq<Instance>, listing: seq<Instance>, id: string)
    requires multiset(sorted) == multiset(Group(listing, id)) && Live(sorted) != []
    ensures
      var keeper := Live(sorted)[KeeperIndex(Live(sorted))];
      keeper in listing && keeper.sandboxId == id && !IsTerminal(keeper.state)
  {
    SameMembers(sorted, Group(listing, id));
    GroupMembers(listing, id);
    LiveMembers(sorted);
    assert Live(sorted)[KeeperIndex(Live(sorted))] in Live(sorted);
  }

  lemma NextGroupKeeps(l: Ledger, h: History, pc: ListingPc, e: Env, cap: nat, maxAge: int)
    requires pc.NextGroup? && Inv(l, h, cap) && ListingOk(l, h, pc)
    ensures ListingKept(l, h, MoveListing(l, h, pc, e, cap, maxAge), cap)
  {
    hide LedgerInv, RecordsOk, KeeperIndex, Live, Group, InOrder, Ids;
    QuietAdvances(l, h, h, cap);
    if pc.g.todo != [] && multiset(e.sorted) == multiset(Group(pc.g.listing, pc.g.todo[0])) && Live(e.sorted) != [] {
      KeeperLive(e.sorted, pc.g.listing, pc.g.todo[0]);
    }
  }

  lemma ReadKeeps(l: Ledger, h: History, pc: ListingPc, e: Env, cap: nat, maxAge: int)
    requires pc.Read? && Inv(l, h, cap) && ListingOk(l, h, pc)
    ensures ListingKept(l, h, MoveListing(l, h, pc, e, cap, maxAge), cap)
  {
    hide LedgerInv, NeedsUpdate;
    QuietAdvances(l, h, h, cap);
    if pc.keeper.sandboxId in l.store.records { RecordFacts(l, h, cap, pc.keeper.sandboxId); }
  }

  lemma RecoverKeeps(l: Ledger, h: History, pc: ListingPc, e: Env, cap: nat, maxAge: int)
    requires pc.Recover? && Inv(l, h, cap) && ListingOk(l, h, pc)
    ensures ListingKept(l, h, MoveListing(l, h, pc, e, cap, maxAge), cap)
  {
    hide Grows, LedgerInv, RecordsOk;
    if pc.keeper.sandboxId in l.store.records {
      QuietAdvances(l, h, h, cap);
    } else {
      hide Inv, HistOk;
      InsertAdvances(l, h, cap, OpAdd(Recovered(pc.keeper, e.at, e.comparedAt, e.clampedAt, maxAge)));
    }
    hide Inv, Apply;
  }

  lemma WriteKeeps(l: Ledger, h: History, pc: ListingPc, e: Env, cap: nat, maxAge: int)
    requires pc.Write? && Inv(l, h, cap) && ListingOk(l, h, pc)
    ensures ListingKept(l, h, MoveListing(l, h, pc, e, cap, maxAge), cap)
  {
    hide LedgerInv, Apply, Update;
    var keeper, rec := pc.keeper, pc.rec;
    if Accepted(l, keeper.sandboxId, RefreshAccepts(rec)) {
      RecordFacts(l, h, cap, keeper.sandboxId);
      UpdateKeeps(l, h, MoveListing(l, h, pc, e, cap, maxAge).hist, cap, keeper.sandboxId, RefreshAccepts(rec),
                  RefreshChange(keeper, Observed(KubeVirt, rec, keeper), e.at));
    } else {
      QuietAdvances(l, h, h, cap);
    }
  }

  lemma ListingQuietKeeps(l: Ledger, h: History, pc: ListingPc, e: Env, cap: nat, maxAge: int)
    requires pc.Fetch? || pc.Duplicates? || pc.Listed? || pc.GaveUp?
    requires Inv(l, h, cap) && ListingOk(l, h, pc)
    ensures ListingKept(l, h, MoveListing(l, h, pc, e, cap, maxAge), cap)
  {
    hide LedgerInv, RecordsOk;
    QuietAdvances(l, h, MoveListing(l, h, pc, e, cap, maxAge).hist, cap);
  }

  // ---- poll, the absence and expiry loops ------------------------------------------------

  ghost predicate SweepKept(l: Ledger, h: History, o: Out<SweepPc>, cap: nat) {
    Advances(l, h, o.ledger, o.hist, cap) && SweepOk(o.ledger, o.hist, o.pc)
  }

  lemma SweepKeeps(l: Ledger, h: History, pc: SweepPc, e: Env, cap: nat, maxAge: int)
    requires Inv(l, h, cap) && SweepOk(l, h, pc)
    ensures SweepKept(l, h, MoveSweep(l, h, pc, e, cap, maxAge), cap)
  {
    hide *;
    if pc.Miss? {
      MissKeeps(l, h, pc, e, cap, maxAge);
    } else if pc.Remove? {
      RemoveKeeps(l, h, pc, e, cap, maxAge);
    } else if pc.NoteExpired? {
      NoteExpiredKeeps(l, h, pc, e, cap, maxAge);
    } else if pc.Scan? || pc.SelectExpired? {
      ScanKeeps(l, h, pc, e, cap, maxAge);
    } else {
      SweepQuietKeeps(l, h, pc, e, cap, maxAge);
    }
  }

  lemma ScanKeeps(l: Ledger, h: History, pc: SweepPc, e: Env, cap: nat, maxAge: int)
    requires pc.Scan? || pc.SelectExpired?
    requires Inv(l, h, cap) && SweepOk(l, h, pc)
    ensures SweepKept(l, h, MoveSweep(l, h, pc, e, cap, maxAge), cap)
  {
    hide Inv, SnapOk, Grows;
    SnapshotsOk(l, h, cap);
    NothingAdvances(l, h, cap);
  }

  lemma CountedOk(l: Ledger, h: History, l': Ledger, h': History, todo: seq<Record>, r: Record)
    requires todo != [] && BoundSnapsOk(l, h, todo)
    requires RecOk(h, r) && Owned(l, r.lease, r.sandboxId) && r.lease == todo[0].lease && r.Bound()
    requires l'.owner == l.owner && h' == h.(misses := h.misses[r.lease := Misses(h, r.lease) + 1])
    ensures BoundSnapsOk(l', h', todo[1..])
    ensures
      var missed := Redact(CountMiss()(r));
      missed.missingPolls >= MISSING_POLL_THRESHOLD ==> MissedOk(l', h', missed)
  {
    assert forall x :: x in todo[1..] ==> x in todo;
  }

  lemma MissKeeps(l: Ledger, h: History, pc: SweepPc, e: Env, cap: nat, maxAge: int)
    requires pc.Miss? && Inv(l, h, cap) && SweepOk(l, h, pc)
    ensures SweepKept(l, h, MoveSweep(l, h, pc, e, cap, maxAge), cap)
  {
    hide LedgerInv, Apply, Update;
    var todo, o := pc.todo, MoveSweep(l, h, pc, e, cap, maxAge);
    if todo == [] || !Accepted(l, todo[0].sandboxId, SameGeneration(todo[0])) {
      QuietAdvances(l, h, h, cap);
    } else {
      var id := todo[0].sandboxId;
      assert todo[0] in todo;
      RecordFacts(l, h, cap, id);
      UpdateKeeps(l, h, o.hist, cap, id, SameGeneration(todo[0]), CountMiss());
      CountedOk(l, h, o.ledger, o.hist, todo, l.store.records[id]);
      hide Inv, MissedOk, BoundSnapsOk;
    }
  }

  lemma RemoveKeeps(l: Ledger, h: History, pc: SweepPc, e: Env, cap: nat, maxAge: int)
    requires pc.Remove? && Inv(l, h, cap) && SweepOk(l, h, pc)
    ensures SweepKept(l, h, MoveSweep(l, h, pc, e, cap, maxAge), cap)
  {
    hide LedgerInv, RecordsOk, Apply;
    RemoveAdvances(l, h, cap, OpDelete(pc.missed.sandboxId, RemoveAccepts(pc.missed)));
  }

  lemma NoteExpiredKeeps(l: Ledger, h: History, pc: SweepPc, e: Env, cap: nat, maxAge: int)
    requires pc.NoteExpired? && Inv(l, h, cap) && SweepOk(l, h, pc)
    ensures SweepKept(l, h, MoveSweep(l, h, pc, e, cap, maxAge), cap)
  {
    hide LedgerInv, Apply, Update;
    var rec := pc.rec;
    if Accepted(l, rec.sandboxId, SameGeneration(rec)) {
      RecordFacts(l, h, cap, rec.sandboxId);
      UpdateKeeps(l, h, MoveSweep(l, h, pc, e, cap, maxAge).hist, cap, rec.sandboxId, SameGeneration(rec), ActChange("deleting", e.at));
    } else {
      QuietAdvances(l, h, h, cap);
    }
  }

  lemma SweepQuietKeeps(l: Ledger, h: History, pc: SweepPc, e: Env, cap: nat, maxAge: int)
    requires pc.Confirm? || pc.Expire? || pc.Swept?
    requires Inv(l, h, cap) && SweepOk(l, h, pc)
    ensures SweepKept(l, h, MoveSweep(l, h, pc, e, cap, maxAge), cap)
  {
    hide LedgerInv, RecordsOk;
    if pc.Expire? && pc.todo != [] { assert pc.todo[0] in pc.todo && forall r :: r in pc.todo[1..] ==> r in pc.todo; }
    QuietAdvances(l, h, MoveSweep(l, h, pc, e, cap, maxAge).hist, cap);
  }

  // ---- Reachable worlds -------------------------------------------------------------------

  ghost predicate WorldOk(w: World, cap: nat) {
    && Inv(w.ledger, w.hist, cap)
    && (forall tid :: tid in w.threads ==> ThreadOk(w.ledger, w.hist, w.threads[tid]))
  }

  lemma MoveKeeps(l: Ledger, h: History, t: Thread, e: Env, cap: nat, maxAge: int)
    requires Inv(l, h, cap) && ThreadOk(l, h, t)
    ensures
      var o := Move(l, h, t, e, cap, maxAge);
      Advances(l, h, o.ledger, o.hist, cap) && ThreadOk(o.ledger, o.hist, o.pc)
  {
    hide Inv, Grows, CreateOk, CallOk, MoveCreate, MoveCall, MoveListing, MoveSweep;
    match t
    case Creating(pc) => CreateKeeps(l, h, pc, e, cap);
    case Calling(pc) => CallKeeps(l, h, pc, e, cap);
    case Listing(pc) =>
      if pc.Listed? {
        NothingAdvances(l, h, cap);
      } else {
        ListingKeeps(l, h, pc, e, cap, maxAge);
      }
    case Sweeping(pc) => SweepKeeps(l, h, pc, e, cap, maxAge);
  }

  lemma NothingAdvances(l: Ledger, h: History, cap: nat)
    requires Inv(l, h, cap)
    ensures Advances(l, h, l, h, cap)
  {
    hide LedgerInv, RecordsOk;
  }

  lemma StepKeeps(w: World, a: Action, cap: nat, maxAge: int)
    requires WorldOk(w, cap) && Enabled(w, a)
    ensures WorldOk(Step(w, a, cap, maxAge), cap)
    ensures Grows(w.ledger, w.hist, Step(w, a, cap, maxAge).ledger, Step(w, a, cap, maxAge).hist)
  {
    match a
    case Begin(_, t) => BeginKeeps(w, a, cap, maxAge);
    case Go(tid, e) => GoKeeps(w, a, cap, maxAge);
    hide *;
  }

  lemma BeginKeeps(w: World, a: Action, cap: nat, maxAge: int)
    requires WorldOk(w, cap) && Enabled(w, a) && a.Begin?
    ensures WorldOk(Step(w, a, cap, maxAge), cap)
    ensures Grows(w.ledger, w.hist, Step(w, a, cap, maxAge).ledger, Step(w, a, cap, maxAge).hist)
  {
    hide Inv;
    assert ThreadOk(w.ledger, w.hist, a.thread);
  }

  lemma GoKeeps(w: World, a: Action, cap: nat, maxAge: int)
    requires WorldOk(w, cap) && Enabled(w, a) && a.Go?
    ensures WorldOk(Step(w, a, cap, maxAge), cap)
    ensures Grows(w.ledger, w.hist, Step(w, a, cap, maxAge).ledger, Step(w, a, cap, maxAge).hist)
  {
    hide Inv, Grows, Move, ThreadOk;
    var w', tid := Step(w, a, cap, maxAge), a.tid;
    MoveKeeps(w.ledger, w.hist, w.threads[tid], a.env, cap, maxAge);
    forall k | k in w'.threads ensures ThreadOk(w'.ledger, w'.hist, w'.threads[k]) {
      if k != tid { ThreadStaysOk(w.ledger, w.hist, w'.ledger, w'.hist, w.threads[k]); }
    }
  }

  lemma RunStart(ws: seq<World>, acts: seq<Action>, cap: nat, maxAge: int)
    requires Run(ws, acts, cap, maxAge)
    ensures |ws| == |acts| + 1 && ws[0] == FRESH
  {
    hide Taken;
  }

  // The last of the first `n` steps of a run.
  lemma RunStep(ws: seq<World>, acts: seq<Action>, cap: nat, maxAge: int, n: nat)
    requires Run(ws, acts, cap, maxAge) && 0 < n < |ws|
    ensures n <= |acts| && Enabled(ws[n - 1], acts[n - 1]) && ws[n] == Step(ws[n - 1], acts[n - 1], cap, maxAge)
  {
    hide Enabled, Step;
    assert Taken(ws, acts, cap, maxAge, n - 1);
  }

  lemma {:induction false} RunKeeps(ws: seq<World>, acts: seq<Action>, cap: nat, maxAge: int, n: nat)
    requires Run(ws, acts, cap, maxAge) && n < |ws|
    ensures WorldOk(ws[n], cap)
  {
    if n == 0 {
      assert ReservedLive(EMPTY) == {};
      assert WorldOk(FRESH, cap);
    } else {
      hide *;
      RunStep(ws, acts, cap, maxAge, n);
      RunKeeps(ws, acts, cap, maxAge, n - 1);
      StepKeeps(ws[n - 1], acts[n - 1], cap, maxAge);
    }
  }

  // Live has already dropped every terminal instance, so a keeper is never one:
  // no run reaches the delete of a terminal keeper.
  lemma TerminalUnreachable(ws: seq<World>, acts: seq<Action>, cap: nat, maxAge: int, n: nat, tid: nat)
    requires Run(ws, acts, cap, maxAge) && n < |ws|
    requires tid in ws[n].threads && ws[n].threads[tid].Listing?
    ensures !ws[n].threads[tid].p.Terminal?
  {
    RunKeeps(ws, acts, cap, maxAge, n);
    hide Run, Inv;
    assert ThreadOk(ws[n].ledger, ws[n].hist, ws[n].threads[tid]);
  }
}
