// The registry's lock-protected map, one pure function per method, and what
// every sequence of its operations keeps: generations and capacity.
module Store {
  import opened Records

  datatype Store = Store(records: map<string, Record>, nextLease: nat)

  datatype ReserveResult = Reserved(lease: nat) | ErrExists | ErrCapacity

  const DEFAULT_MAX_INSTANCES: nat := 10
  const DEFAULT_MAX_AGE: int := 8 * 3600 * SECOND
  const MAX_DURATION: int := 0x7FFF_FFFF_FFFF_FFFF

  function EffectiveMaxInstances(maxInstances: int): nat {
    if maxInstances > 0 then maxInstances else DEFAULT_MAX_INSTANCES
  }

  function EffectiveMaxAge(maxAge: int): int {
    if maxAge > 0 then maxAge else DEFAULT_MAX_AGE
  }

  // time.Time.Sub saturates at the limits of an int64 duration.
  function Elapsed(later: Time, earlier: Time): int {
    var d := later - earlier;
    if d > MAX_DURATION then MAX_DURATION else if d < -MAX_DURATION - 1 then -MAX_DURATION - 1 else d
  }

  function ReserveWithLease(s: Store, max: nat, rec: Record): (Store, ReserveResult) {
    if rec.sandboxId in s.records then (s, ErrExists)
    else if |s.records| >= max then (s, ErrCapacity)
    else
      var lease := s.nextLease + 1;
      (Store(s.records[rec.sandboxId := Redact(rec.(lease := lease))], lease), Reserved(lease))
  }

  // The second component says whether the record was inserted.
  function Add(s: Store, rec: Record): (Store, bool) {
    if rec.sandboxId in s.records then (s, false)
    else if rec.lease == 0 then
      (Store(s.records[rec.sandboxId := Redact(rec.(lease := s.nextLease + 1))], s.nextLease + 1), true)
    else
      (s.(records := s.records[rec.sandboxId := Redact(rec)]), true)
  }

  function Rollback(s: Store, id: string): Store {
    if id in s.records && !s.records[id].Bound() then s.(records := s.records - {id}) else s
  }

  function UpdateIf(s: Store, id: string, accept: Record -> bool, change: Record -> Record): (Store, Option<Record>) {
    if id !in s.records || !accept(Redact(s.records[id])) then (s, None)
    else
      var rec := Redact(change(s.records[id]));
      (s.(records := s.records[id := rec]), Some(rec))
  }

  function DeleteIf(s: Store, id: string, accept: Record -> bool): (Store, Option<Record>) {
    if id !in s.records || !accept(Redact(s.records[id])) then (s, None)
    else (s.(records := s.records - {id}), Some(Redact(s.records[id])))
  }

  predicate IsExpired(r: Record, now: Time, maxAge: int) {
    r.createdAt != ZERO_TIME && Elapsed(now, r.createdAt) > EffectiveMaxAge(maxAge) && r.state != "terminated"
  }

  // ---- Runs of registry operations -------------------------------------

  datatype Op =
    | OpReserve(rec: Record)
    | OpAdd(rec: Record)
    | OpRollback(id: string)
    | OpUpdate(id: string, accept: Record -> bool, change: Record -> Record)
    | OpDelete(id: string, accept: Record -> bool)

  // A store with its history: the sandbox id each lease was issued for, the
  // leases issued by reservations, the leases whose record was removed, and how
  // many records came and went.
  datatype Ledger = Ledger(
    store: Store, owner: map<nat, string>, reserved: set<nat>, retired: set<nat>, inserted: nat, removed: nat)

  const EMPTY: Ledger := Ledger(Store(map[], 0), map[], {}, {}, 0, 0)

  // Drivers add records without a lease, and their update closures touch
  // neither the sandbox id nor the lease.
  ghost predicate Admissible(op: Op) {
    match op
    case OpAdd(rec) => rec.lease == 0
    case OpUpdate(_, _, change) => KeepsIdentity(change)
    case _ => true
  }

  ghost predicate KeepsIdentity(change: Record -> Record) {
    forall r: Record :: change(r).sandboxId == r.sandboxId && change(r).lease == r.lease
  }

  function ApplyStore(s: Store, max: nat, op: Op): Store {
    match op
    case OpReserve(rec) => ReserveWithLease(s, max, rec).0
    case OpAdd(rec) => Add(s, rec).0
    case OpRollback(id) => Rollback(s, id)
    case OpUpdate(id, accept, change) => UpdateIf(s, id, accept, change).0
    case OpDelete(id, accept) => DeleteIf(s, id, accept).0
  }

  function Key(op: Op): string {
    match op
    case OpReserve(rec) => rec.sandboxId
    case OpAdd(rec) => rec.sandboxId
    case OpRollback(id) => id
    case OpUpdate(id, _, _) => id
    case OpDelete(id, _) => id
  }

  function Apply(l: Ledger, max: nat, op: Op): Ledger {
    var s, s', k := l.store, ApplyStore(l.store, max, op), Key(op);
    var issued := k !in s.records && k in s'.records;
    var released := k in s.records && k !in s'.records;
    Ledger(
      s',
      if issued then l.owner[s'.nextLease := k] else l.owner,
      if issued && op.OpReserve? then l.reserved + {s'.nextLease} else l.reserved,
      if released then l.retired + {s.records[k].lease} else l.retired,
      if issued then l.inserted + 1 else l.inserted,
      if released then l.removed + 1 else l.removed)
  }

  function RunOps(l: Ledger, max: nat, ops: seq<Op>): Ledger
    decreases |ops|
  {
    if ops == [] then l else Apply(RunOps(l, max, ops[..|ops| - 1]), max, ops[|ops| - 1])
  }

  // Reserved generations of a record map.
  function LeasesIn(records: map<string, Record>, reserved: set<nat>): set<string> {
    set id | id in records && records[id].lease in reserved
  }

  function ReservedLive(l: Ledger): set<string> {
    LeasesIn(l.store.records, l.reserved)
  }

  ghost predicate LeaseInv(l: Ledger) {
    && (forall id :: id in l.store.records ==> RecordInv(l, id, l.store.records[id]))
    && (forall x :: x in l.owner ==> 1 <= x <= l.store.nextLease)
    && l.retired <= l.owner.Keys
    && l.reserved <= l.owner.Keys
    && (forall x :: x in l.owner && x !in l.retired ==> IsLive(l, x))
  }

  // The record of a generation is still in the registry.
  ghost predicate IsLive(l: Ledger, lease: nat) {
    lease in l.owner && l.owner[lease] in l.store.records && l.store.records[l.owner[lease]].lease == lease
  }

  // A live record carries its own generation, issued for its id and not retired.
  ghost predicate RecordInv(l: Ledger, id: string, r: Record) {
    && r.sandboxId == id
    && Redacted(r)
    && r.lease in l.owner && l.owner[r.lease] == id
    && r.lease !in l.retired
  }

  ghost predicate CountInv(l: Ledger, max: nat) {
    && |ReservedLive(l)| <= max
    && |l.store.records| == l.inserted - l.removed
  }

  ghost predicate LedgerInv(l: Ledger, max: nat) {
    LeaseInv(l) && CountInv(l, max)
  }

  // One operation touches one sandbox id: it inserts a fresh generation,
  // rewrites the generation in place, removes it, or does nothing.
  datatype Effect = Unchanged | Inserted(rec: Record) | Rewritten(rec: Record) | Removed

  ghost predicate HasEffect(s: Store, s': Store, k: string, e: Effect) {
    match e
    case Unchanged => s' == s
    case Inserted(r) =>
      k !in s.records && s' == Store(s.records[k := r], s.nextLease + 1)
      && r.sandboxId == k && r.lease == s'.nextLease && Redacted(r)
    case Rewritten(r) =>
      k in s.records && s' == s.(records := s.records[k := r])
      && r.sandboxId == s.records[k].sandboxId && r.lease == s.records[k].lease && Redacted(r)
    case Removed =>
      k in s.records && s' == s.(records := s.records - {k})
  }

  lemma EffectOf(s: Store, max: nat, op: Op) returns (e: Effect)
    requires Admissible(op)
    ensures HasEffect(s, ApplyStore(s, max, op), Key(op), e)
    ensures op.OpReserve? && e.Inserted? ==> |s.records| < max
    ensures e.Inserted? ==> op.OpReserve? || op.OpAdd?
  {
    var s', k := ApplyStore(s, max, op), Key(op);
    if s' == s {
      e := Unchanged;
    } else if k !in s'.records {
      e := Removed;
    } else if k in s.records {
      e := Rewritten(s'.records[k]);
    } else {
      e := Inserted(s'.records[k]);
    }
  }

  lemma ApplyKeepsLeases(l: Ledger, max: nat, op: Op)
    requires LeaseInv(l) && Admissible(op)
    ensures LeaseInv(Apply(l, max, op))
    ensures l.store.nextLease <= Apply(l, max, op).store.nextLease
  {
    var e := EffectOf(l.store, max, op);
    var l' := Apply(l, max, op);
    forall id | id in l'.store.records
      ensures RecordInv(l', id, l'.store.records[id])
    {
      if id != Key(op) {
        assert RecordInv(l, id, l.store.records[id]);
      } else if id in l.store.records {
        assert RecordInv(l, id, l.store.records[id]);
      }
    }
  }

  lemma ReservationsShrink(l: Ledger, max: nat, op: Op)
    requires LeaseInv(l) && Admissible(op) && !op.OpReserve?
    ensures LeasesIn(Apply(l, max, op).store.records, l.reserved) <= LeasesIn(l.store.records, l.reserved)
  {
    var e := EffectOf(l.store, max, op);
  }

  lemma RecordCount(l: Ledger, max: nat, op: Op)
    requires Admissible(op)
    ensures
      var l' := Apply(l, max, op);
      |l'.store.records| - |l.store.records| == (l'.inserted - l.inserted) - (l'.removed - l.removed)
    ensures op.OpReserve? && Apply(l, max, op).reserved != l.reserved ==> |Apply(l, max, op).store.records| <= max
  {
    hide ApplyStore;
    var e := EffectOf(l.store, max, op);
    var before, after := l.store.records.Keys, Apply(l, max, op).store.records.Keys;
    assert |before| == |l.store.records| && |after| == |Apply(l, max, op).store.records|;
    match e
    case Unchanged =>
    case Rewritten(_) => assert after == before;
    case Removed => assert after == before - {Key(op)};
    case Inserted(_) => assert after == before + {Key(op)};
  }

  lemma ApplyKeepsCounts(l: Ledger, max: nat, op: Op)
    requires LedgerInv(l, max) && Admissible(op)
    ensures CountInv(Apply(l, max, op), max)
  {
    var l' := Apply(l, max, op);
    RecordCount(l, max, op);
    if !op.OpReserve? {
      ReservationsShrink(l, max, op);
      SubsetSize(ReservedLive(l'), ReservedLive(l));
    } else if l'.reserved != l.reserved {
      SubsetSize(ReservedLive(l'), l'.store.records.Keys);
    } else {
      assert l'.store == l.store;
    }
  }

  lemma SubsetSize<T>(a: set<T>, b: set<T>)
    requires a <= b
    ensures |a| <= |b|
  {
    assert b == a + (b - a);
  }

  lemma {:induction false} RunKeepsInv(l: Ledger, max: nat, ops: seq<Op>)
    requires LedgerInv(l, max)
    requires forall i :: 0 <= i < |ops| ==> Admissible(ops[i])
    ensures LedgerInv(RunOps(l, max, ops), max)
    decreases |ops|
  {
    if ops != [] {
      var init := ops[..|ops| - 1];
      RunKeepsInv(l, max, init);
      ApplyKeepsLeases(RunOps(l, max, init), max, ops[|ops| - 1]);
      ApplyKeepsCounts(RunOps(l, max, init), max, ops[|ops| - 1]);
    }
  }

  lemma {:induction false} RetiredGrows(l: Ledger, max: nat, ops: seq<Op>, more: seq<Op>)
    ensures RunOps(l, max, ops).retired <= RunOps(l, max, ops + more).retired
    decreases |more|
  {
    if more == [] {
      assert ops + more == ops;
    } else {
      assert (ops + more)[..|ops + more| - 1] == ops + more[..|more| - 1];
      RetiredGrows(l, max, ops, more[..|more| - 1]);
    }
  }

  // A generation that once left the registry never comes back.
  lemma LeaseNeverReturns(max: nat, ops: seq<Op>, more: seq<Op>, lease: nat)
    requires forall i :: 0 <= i < |ops| ==> Admissible(ops[i])
    requires forall i :: 0 <= i < |more| ==> Admissible(more[i])
    requires lease in RunOps(EMPTY, max, ops).retired
    ensures forall id :: id in RunOps(EMPTY, max, ops + more).store.records ==>
              RunOps(EMPTY, max, ops + more).store.records[id].lease != lease
  {
    RetiredGrows(EMPTY, max, ops, more);
    assert LedgerInv(EMPTY, max) by { assert ReservedLive(EMPTY) == {}; }
    RunKeepsInv(EMPTY, max, ops + more);
  }

  // Over every run: leases are distinct and bounded, live reservations fit the
  // capacity, and the record count is inserts minus removals.
  lemma RegistryRunSafe(max: nat, ops: seq<Op>)
    requires forall i :: 0 <= i < |ops| ==> Admissible(ops[i])
    ensures
      var l := RunOps(EMPTY, max, ops);
      && (forall id :: id in l.store.records ==> 1 <= l.store.records[id].lease <= l.store.nextLease)
      && (forall a, b :: a in l.store.records && b in l.store.records && a != b ==>
            l.store.records[a].lease != l.store.records[b].lease)
      && |ReservedLive(l)| <= max
      && |l.store.records| == l.inserted - l.removed
      && (forall id :: id in l.store.records ==> Redacted(l.store.records[id]))
  {
    assert LedgerInv(EMPTY, max) by { assert ReservedLive(EMPTY) == {}; }
    RunKeepsInv(EMPTY, max, ops);
  }
}
