// The part of a Kubernetes namespace the adapter writes to, and what one
// request does to it. A request may fail although it was applied.
module ObjectStore {
  import opened Records

  // What the adapter can tell about an error of the API.
  datatype Fault = AlreadyExists | NotFound | Conflict | Transient | Interrupted | Other

  // Faults that say nothing about the objects.
  type Outage = f: Fault | f == Transient || f == Interrupted || f == Other witness Other

  // What happens to a request, apart from what the objects say.
  datatype Weather =
    | Fair
    | Storm(outage: Outage, applied: bool)   // it fails, and was applied or not
    | Contention                             // an update finds the object moved

  datatype Owner = Owner(vm: string, uid: nat)

  datatype Secret = Secret(digest: string, userdata: string, owner: Option<Owner>)

  datatype Vm = Vm(digest: string, sandboxLabel: string, body: string, uid: nat)

  datatype Objects = Objects(
    secrets: map<string, Secret>, vms: map<string, Vm>, volumes: set<string>, nextUid: nat)

  datatype Kind = VirtualMachine | DataVolume | CloudInitSecret

  predicate Exists(o: Objects, kind: Kind, name: string) {
    match kind
    case VirtualMachine => name in o.vms
    case DataVolume => name in o.volumes
    case CloudInitSecret => name in o.secrets
  }

  function Without(o: Objects, kind: Kind, name: string): Objects {
    match kind
    case VirtualMachine => o.(vms := o.vms - {name})
    case DataVolume => o.(volumes := o.volumes - {name})
    case CloudInitSecret => o.(secrets := o.secrets - {name})
  }

  // The objects after a request that would make them `changed` or be refused.
  function Answer(o: Objects, changed: Objects, refused: Option<Fault>, w: Weather): (Objects, Option<Fault>) {
    match w
    case Storm(outage, applied) => (if applied && refused.None? then changed else o, Some(outage))
    case _ => if refused.None? then (changed, None) else (o, refused)
  }

  function CreateSecret(o: Objects, name: string, s: Secret, w: Weather): (Objects, Option<Fault>) {
    Answer(o, o.(secrets := o.secrets[name := s]), if name in o.secrets then Some(AlreadyExists) else None, w)
  }

  function GetSecret(o: Objects, name: string, w: Weather): (Option<Secret>, Option<Fault>) {
    if w.Storm? then (None, Some(w.outage))
    else if name !in o.secrets then (None, Some(NotFound))
    else (Some(o.secrets[name]), None)
  }

  function UpdateSecret(o: Objects, name: string, s: Secret, w: Weather): (Objects, Option<Fault>) {
    Answer(o, o.(secrets := o.secrets[name := s]),
           if name !in o.secrets then Some(NotFound) else if w.Contention? then Some(Conflict) else None, w)
  }

  // The object created carries an identity of its own.
  function CreateVm(o: Objects, name: string, desired: Vm, w: Weather): (Objects, Option<Fault>) {
    Answer(o, o.(vms := o.vms[name := desired.(uid := o.nextUid)], nextUid := o.nextUid + 1),
           if name in o.vms then Some(AlreadyExists) else None, w)
  }

  function GetVm(o: Objects, name: string, w: Weather): (Option<Vm>, Option<Fault>) {
    if w.Storm? then (None, Some(w.outage))
    else if name !in o.vms then (None, Some(NotFound))
    else (Some(o.vms[name]), None)
  }

  function Delete(o: Objects, kind: Kind, name: string, w: Weather): (Objects, Option<Fault>) {
    Answer(o, Without(o, kind, name), if Exists(o, kind, name) then None else Some(NotFound), w)
  }
}
