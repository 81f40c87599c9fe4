// What both drivers' polls do to the record of one sandbox.
module Transitions {
  import opened Records
  import opened Store
  import opened Fleet

  const MISSING_POLL_THRESHOLD: nat := 3
  const CLOCK_SKEW: int := 5 * 60 * SECOND

  function SandboxStatus(name: string, instanceId: string, state: string, at: Time): Option<Status> {
    Some(Status(name, instanceId, state, at))
  }

  function RecordFromInstance(x: Instance, at: Time): Record {
    Record(x.sandboxId, x.name, x.namespace, x.workspace, x.id, x.state, x.createdAt, 0, None,
           SandboxStatus(x.name, x.id, x.state, at), 0)
  }

  predicate Untrusted(createdAt: Time, now: Time) {
    createdAt == ZERO_TIME || createdAt > now + CLOCK_SKEW
  }

  // A record rebuilt from the provider; an untrustworthy age counts as expired.
  // The three times are the readings of the clock the code takes on the way.
  function Recovered(x: Instance, statusAt: Time, comparedAt: Time, clampedAt: Time, maxAge: int): Record {
    var r := RecordFromInstance(x, statusAt);
    if Untrusted(r.createdAt, comparedAt) then r.(createdAt := clampedAt - maxAge - SECOND) else r
  }

  function Refresh(r: Record, x: Instance, observed: string, at: Time): Record {
    var r1 := r.(instanceId := x.id, missingPolls := 0,
                 createdAt := if r.createdAt == ZERO_TIME then x.createdAt else r.createdAt);
    if r1.state != observed
    then r1.(state := observed, lastStatus := SandboxStatus(r1.name, r1.instanceId, observed, at))
    else r1
  }

  // A requested stop, delete or expiry shows in the state and the status.
  function WithState(r: Record, state: string, at: Time): Record {
    r.(state := state, lastStatus := SandboxStatus(r.name, r.instanceId, state, at))
  }

  function ActChange(state: string, at: Time): Record -> Record {
    (r: Record) => WithState(r, state, at)
  }

  lemma ActKeepsIdentity(state: string, at: Time)
    ensures KeepsIdentity(ActChange(state, at))
  {
  }

  // The changes both drivers pass to the registry; they leave the sandbox id
  // and the lease alone.
  function CommitChange(vm: Instance, createdAt: Time): Record -> Record {
    (r: Record) => r.(instanceId := vm.id, state := vm.state, createdAt := vm.createdAt,
                      lastStatus := SandboxStatus(r.name, vm.id, vm.state, createdAt))
  }

  function RefreshChange(keeper: Instance, observed: string, at: Time): Record -> Record {
    (r: Record) => Refresh(r, keeper, observed, at)
  }

  lemma RefreshKeepsIdentity(keeper: Instance, observed: string, at: Time)
    ensures KeepsIdentity(RefreshChange(keeper, observed, at))
  {
  }

  function CountMiss(): Record -> Record {
    (r: Record) => r.(missingPolls := r.missingPolls + 1)
  }

  // What the provider and the clock decide about one sandbox during one poll.
  datatype Choice = Choice(
    sorted: seq<Instance>,   // the sandbox's group as the sort left it
    statusAt: Time, comparedAt: Time, clampedAt: Time,
    lease: nat,              // the generation Add issues, if it is called
    cleanupOk: bool,         // Terminate of an absent instance returned nil
    expireOk: bool,          // Terminate of an expired instance returned nil
    expiredAt: Time)

  function CountStep(pre: Option<Record>, seen: bool, cleanupOk: bool): Option<Record> {
    if pre.None? || !pre.value.Bound() || seen then pre
    else
      var missed := Redact(pre.value.(missingPolls := pre.value.missingPolls + 1));
      if missed.missingPolls >= MISSING_POLL_THRESHOLD && cleanupOk then None else Some(missed)
  }

  // Due for expiry and not yet on the way to `goal`, the driver's word for it.
  predicate Expires(r: Record, goal: string, now: Time, maxAge: int) {
    IsExpired(r, now, maxAge) && r.Bound() && r.state != goal
  }

  function ExpireStep(pre: Option<Record>, goal: string, now: Time, maxAge: int, expireOk: bool, at: Time): Option<Record> {
    if pre.Some? && Expires(pre.value, goal, now, maxAge) && expireOk
    then Some(Redact(WithState(pre.value, goal, at)))
    else pre
  }

  // The instances a poll considers for a sandbox id.
  function Matches(listing: seq<Instance>, id: string): seq<Instance> {
    if id == "" then [] else Group(listing, id)
  }

  lemma MatchesMembers(listing: seq<Instance>, id: string)
    ensures forall x :: x in Matches(listing, id) <==> x in listing && x.sandboxId == id && id != ""
  {
    GroupMembers(listing, id);
  }

  ghost predicate Covers(listing: seq<Instance>, cs: map<string, Choice>) {
    && (forall x :: x in listing && x.sandboxId != "" ==> x.sandboxId in cs)
    && (forall id :: id in cs ==> SortedFrom(cs[id].sorted, Matches(listing, id)))
  }

  lemma HasMember(s: seq<Instance>)
    requires s != []
    ensures exists x :: x in s
  {
    assert s[0] in s;
  }

  // A record recovered without a trustworthy age is expired later in the same
  // poll, whatever the clock did in between, unless its state is "terminated".
  lemma UntrustedAgeExpires(x: Instance, statusAt: Time, comparedAt: Time, clampedAt: Time, now: Time, maxAge: int)
    requires 0 < maxAge <= MAX_DURATION - SECOND && maxAge + SECOND < clampedAt <= now
    requires Untrusted(x.createdAt, comparedAt)
    ensures IsExpired(Recovered(x, statusAt, comparedAt, clampedAt, maxAge), now, maxAge) <==> x.state != "terminated"
  {
  }
}
