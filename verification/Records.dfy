// The provider-independent record of one sandbox, and what clients see of it.
module Records {

  datatype Option<+T> = None | Some(value: T)

  // Nanoseconds after Go's zero time.Time, so the zero time is 0.
  type Time = int

  const ZERO_TIME: Time := 0
  const SECOND: int := 1_000_000_000

  // A status carries the state it was derived from; its condition texts are a
  // function of that state.
  datatype Status = Status(sandboxName: string, instanceId: string, state: string, transition: Time)

  datatype Spec = Spec(sandboxToken: string, rest: string)

  datatype Record = Record(
    sandboxId: string,
    name: string,
    namespace: string,
    workspace: string,
    instanceId: string,
    state: string,
    createdAt: Time,
    missingPolls: nat,
    spec: Option<Spec>,
    lastStatus: Option<Status>,
    lease: nat)
  {
    predicate Bound() { instanceId != "" }
  }

  // The outbound view: no lease, instance id, state or miss counter.
  datatype DriverSandbox = DriverSandbox(
    id: string, name: string, namespace: string, workspace: string,
    spec: Option<Spec>, status: Option<Status>)

  function RedactSpec(spec: Option<Spec>): Option<Spec> {
    match spec
    case None => None
    case Some(s) => Some(s.(sandboxToken := ""))
  }

  // What cloneRecord stores and returns: a copy without the sandbox token.
  function Redact(r: Record): Record {
    r.(spec := RedactSpec(r.spec))
  }

  predicate Redacted(r: Record) {
    r.spec.Some? ==> r.spec.value.sandboxToken == ""
  }

  function ToDriverSandbox(r: Record): DriverSandbox {
    DriverSandbox(r.sandboxId, r.name, r.namespace, r.workspace, RedactSpec(r.spec), r.lastStatus)
  }

  function Lookup<K, V>(m: map<K, V>, k: K): Option<V> {
    if k in m then Some(m[k]) else None
  }
}
