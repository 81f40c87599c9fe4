// The EC2 driver updates and deletes without a guard.
module Ec2Writes {
  import opened Records
  import opened Store
  import opened Fleet
  import opened Transitions

  // Update(id, f) is UpdateIf with a predicate that accepts everything.
  function Unguarded(): Record -> bool {
    (r: Record) => true
  }

  // A create reserved this generation for the id in a run of the registry. Its
  // commit, a plain update of whatever record has the id, lands in its own
  // generation exactly while that has not been retired. Once it has been, the
  // commit lands in another generation exactly if the id was taken again.
  lemma CommitLandsUnlessRetired(max: nat, ops: seq<Op>, id: string, lease: nat, x: Instance, at: Time)
    requires forall i :: 0 <= i < |ops| ==> Admissible(ops[i])
    requires lease in RunOps(EMPTY, max, ops).owner && RunOps(EMPTY, max, ops).owner[lease] == id
    ensures
      var l := RunOps(EMPTY, max, ops);
      var (s', written) := UpdateIf(l.store, id, Unguarded(), CommitChange(x, at));
      lease !in l.retired <==>
        written.Some? && written.value.lease == lease && Lookup(s'.records, id) == written && written.value.instanceId == x.id
    ensures
      var l := RunOps(EMPTY, max, ops);
      var (s', written) := UpdateIf(l.store, id, Unguarded(), CommitChange(x, at));
      lease in l.retired && id in l.store.records <==>
        written.Some? && written.value.lease != lease && Lookup(s'.records, id) == written && written.value.instanceId == x.id
    ensures
      var l := RunOps(EMPTY, max, ops);
      var (s', written) := UpdateIf(l.store, id, Unguarded(), CommitChange(x, at));
      if id in l.store.records then
        var r := l.store.records[id];
        s' == l.store.(records := l.store.records[id := r.(
          instanceId := x.id, state := x.state, createdAt := x.createdAt, lastStatus := Some(Status(r.name, x.id, x.state, at)))])
      else s' == l.store && written.None?
  {
    var l := RunOps(EMPTY, max, ops);
    if id in l.store.records { StoredRedacted(max, ops, id); }
    assert LedgerInv(EMPTY, max) by { assert ReservedLive(EMPTY) == {}; }
    RunKeepsInv(EMPTY, max, ops);
    if lease !in l.retired {
      assert IsLive(l, lease);
    } else if id in l.store.records {
      assert RecordInv(l, id, l.store.records[id]);
    }
  }

  lemma StoredRedacted(max: nat, ops: seq<Op>, id: string)
    requires (forall i :: 0 <= i < |ops| ==> Admissible(ops[i])) && id in RunOps(EMPTY, max, ops).store.records
    ensures Redact(RunOps(EMPTY, max, ops).store.records[id]) == RunOps(EMPTY, max, ops).store.records[id]
  {
    RegistryRunSafe(max, ops);
    hide RunOps;
  }

  // A run in which it does: the first create's instance is adopted by a poll,
  // shown terminated and forgotten; a second create reserves the id.
  function Overtaken(rec: Record, x: Instance, at: Time, max: nat): Store {
    var s1 := ReserveWithLease(EMPTY.store, max, rec).0;
    var s2 := UpdateIf(s1, rec.sandboxId, Unguarded(), RefreshChange(x, x.state, at)).0;
    var s3 := DeleteIf(s2, rec.sandboxId, Unguarded()).0;
    ReserveWithLease(s3, max, rec).0
  }

  // The first create's commit then binds its dead instance to the second's
  // record.
  lemma CommitCrossesGenerations(rec: Record, x: Instance, at: Time, max: nat)
    requires !rec.Bound() && max > 0
    ensures
      var id, s := rec.sandboxId, Overtaken(rec, x, at, max);
      && id in s.records && s.records[id].lease == 2 && !s.records[id].Bound()
      && UpdateIf(s, id, Unguarded(), CommitChange(x, at)).0.records[id].lease == 2
      && UpdateIf(s, id, Unguarded(), CommitChange(x, at)).0.records[id].instanceId == x.id
  {
    var id := rec.sandboxId;
    var s1 := ReserveWithLease(EMPTY.store, max, rec).0;
    assert s1.records.Keys == {id};
    var s2 := UpdateIf(s1, id, Unguarded(), RefreshChange(x, x.state, at)).0;
    var s3 := DeleteIf(s2, id, Unguarded()).0;
    assert s2.records.Keys == {id} && s3.records.Keys == {};
  }
}
