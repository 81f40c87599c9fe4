// The guards and changes the KubeVirt driver passes to UpdateIf and DeleteIf.
module KubeWrites {
  import opened Records
  import opened Store
  import opened Fleet
  import opened Transitions
  import opened Reconcile

  // States in which a launch must not be committed.
  predicate Refuses(state: string) {
    state == "delete-requested" || state == "deleting" || state == "stopping"
  }

  function CommitAccepts(lease: nat): Record -> bool {
    (r: Record) => r.lease == lease && !Refuses(r.state)
  }

  function MarkAccepts(rec: Record): Record -> bool {
    (r: Record) => r.lease == rec.lease && !r.Bound() && r.state == "launching"
  }

  function MarkChange(at: Time): Record -> Record {
    (r: Record) => r.(state := "delete-requested", lastStatus := SandboxStatus(r.name, "", "deleting", at))
  }

  function AdoptAccepts(): Record -> bool {
    (r: Record) => !r.Bound() && r.state == "launching"
  }

  function AdoptChange(rec: Record): Record -> Record {
    (r: Record) => r.(instanceId := rec.instanceId, state := rec.state, createdAt := rec.createdAt, lastStatus := rec.lastStatus)
  }

  function ActAccepts(rec: Record): Record -> bool {
    (r: Record) => r.instanceId == rec.instanceId
  }

  function RefreshAccepts(rec: Record): Record -> bool {
    (r: Record) => r.lease == rec.lease && (!r.Bound() || r.instanceId == rec.instanceId)
  }

  function SameGeneration(rec: Record): Record -> bool {
    (r: Record) => r.lease == rec.lease && r.instanceId == rec.instanceId
  }

  function RemoveAccepts(missed: Record): Record -> bool {
    (r: Record) => r.lease == missed.lease && r.instanceId == missed.instanceId && r.missingPolls >= MISSING_POLL_THRESHOLD
  }

  function TerminalAccepts(keeper: Instance): Record -> bool {
    (r: Record) => r.instanceId == keeper.id
  }
}
