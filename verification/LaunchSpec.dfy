// What the adapter's retried actions and its launch do, as functions of the
// objects, the number of the next request and the weather to come.
module LaunchSpec {
  import opened Records
  import opened ObjectStore

  // An error as the adapter sees it; an uncertain one wraps the error of the
  // lookup that should have settled an ambiguous create.
  datatype Error = Error(fault: Fault, uncertain: bool)

  const STEPS: nat := 5           // of retryWithBackoff
  const CONFLICT_STEPS: nat := 4  // of retry.RetryOnConflict

  type Sky = nat -> Weather

  predicate IsTransient(e: Error) { e.fault == Transient }

  predicate SameSecret(s: Secret, desired: Secret) {
    s.digest == desired.digest && s.userdata == desired.userdata
  }

  predicate SameVm(v: Vm, desired: Vm) {
    v.digest == desired.digest && v.sandboxLabel == desired.sandboxLabel
  }

  // ---- One try of an action ------------------------------------------------------

  datatype Action =
    | PutSecret(name: string, secret: Secret)
    | PutVm(name: string, vm: Vm)
    | Own(name: string, owner: Owner)
    | Remove(kind: Kind, name: string)

  datatype Attempt = Attempt(objects: Objects, calls: nat, err: Option<Error>, created: bool, vm: Option<Vm>)

  // A create was refused as existing or failed transiently: what the lookup
  // that follows makes of it.
  function Settle(createErr: Fault, getErr: Option<Fault>, same: bool): Option<Error> {
    if getErr == Some(NotFound) && createErr == Transient then Some(Error(Transient, false))
    else if getErr.Some? then Some(Error(getErr.value, createErr == Transient))
    else if same then None else Some(Error(Conflict, false))
  }

  function TryPutSecret(name: string, desired: Secret, o: Objects, k: nat, sky: Sky): Attempt {
    var (o', createErr) := CreateSecret(o, name, desired, sky(k));
    if createErr.None? then Attempt(o', k + 1, None, true, None)
    else if createErr.value != AlreadyExists && createErr.value != Transient then
      Attempt(o', k + 1, Some(Error(createErr.value, false)), false, None)
    else
      var (existing, getErr) := GetSecret(o', name, sky(k + 1));
      Attempt(o', k + 2, Settle(createErr.value, getErr, existing.Some? && SameSecret(existing.value, desired)), false, None)
  }

  function TryPutVm(name: string, desired: Vm, o: Objects, k: nat, sky: Sky): (t: Attempt)
    ensures t.err.None? ==> t.vm.Some?
  {
    var (o', createErr) := CreateVm(o, name, desired, sky(k));
    if createErr.None? then Attempt(o', k + 1, None, true, Lookup(o'.vms, name))
    else if createErr.value != AlreadyExists && createErr.value != Transient then
      Attempt(o', k + 1, Some(Error(createErr.value, false)), false, None)
    else
      var (existing, getErr) := GetVm(o', name, sky(k + 1));
      var err := Settle(createErr.value, getErr, existing.Some? && SameVm(existing.value, desired));
      Attempt(o', k + 2, err, false, if err.None? then existing else None)
  }

  // Read, set the owner, write back.
  function OwnStep(name: string, owner: Owner, o: Objects, k: nat, sky: Sky): Attempt {
    var (secret, getErr) := GetSecret(o, name, sky(k));
    if getErr.Some? then Attempt(o, k + 1, Some(Error(getErr.value, false)), false, None)
    else
      var (o', updateErr) := UpdateSecret(o, name, secret.value.(owner := Some(owner)), sky(k + 1));
      Attempt(o', k + 2, if updateErr.None? then None else Some(Error(updateErr.value, false)), false, None)
  }

  // retry.RetryOnConflict: again while the write conflicts. It takes an
  // interrupted request for the end of its own retries and reports the conflict
  // before it, and nothing at all if there was none.
  function TryOwn(name: string, owner: Owner, o: Objects, k: nat, sky: Sky, steps: nat, last: Option<Error>): Attempt
    decreases steps
  {
    if steps == 0 then Attempt(o, k, last, false, None)
    else
      var t := OwnStep(name, owner, o, k, sky);
      if t.err.None? then t
      else if t.err.value.fault == Interrupted then t.(err := last)
      else if t.err.value.fault == Conflict then TryOwn(name, owner, t.objects, t.calls, sky, steps - 1, t.err)
      else t
  }

  function TryRemove(kind: Kind, name: string, o: Objects, k: nat, sky: Sky): Attempt {
    var (o', err) := Delete(o, kind, name, sky(k));
    Attempt(o', k + 1, if err.None? then None else Some(Error(err.value, false)), false, None)
  }

  function Try(action: Action, o: Objects, k: nat, sky: Sky): Attempt {
    match action
    case PutSecret(name, secret) => TryPutSecret(name, secret, o, k, sky)
    case PutVm(name, vm) => TryPutVm(name, vm, o, k, sky)
    case Own(name, owner) => TryOwn(name, owner, o, k, sky, CONFLICT_STEPS, None)
    case Remove(kind, name) => TryRemove(kind, name, o, k, sky)
  }

  // ---- retryWithBackoff ------------------------------------------------------------

  // The context ends before the request of this number, if it ends at all.
  type Deadline = Option<nat>

  predicate Over(deadline: Deadline, k: nat) {
    deadline.Some? && k >= deadline.value
  }

  // An interruption is reported as the transient error before it, if any.
  function Reported(err: Error, last: Option<Error>): Error {
    if err.fault == Interrupted && last.Some? then last.value else err
  }

  function Retried(action: Action, o: Objects, k: nat, sky: Sky, deadline: Deadline, steps: nat, last: Option<Error>): (t: Attempt)
    requires steps > 0 || last.Some?
    ensures t.err.None? && action.PutVm? ==> t.vm.Some?
    decreases steps
  {
    if steps == 0 then Attempt(o, k, last, false, None)
    else if Over(deadline, k) then Attempt(o, k, Some(Reported(Error(Interrupted, false), last)), false, None)
    else
      var t := Try(action, o, k, sky);
      if t.err.None? then t
      else if !IsTransient(t.err.value) then t.(err := Some(Reported(t.err.value, last)))
      else Retried(action, t.objects, t.calls, sky, deadline, steps - 1, t.err)
  }

  function Retry(action: Action, o: Objects, k: nat, sky: Sky, deadline: Deadline): Attempt {
    Retried(action, o, k, sky, deadline, STEPS, None)
  }

  // ---- Terminate and Launch -----------------------------------------------------------

  // A delete that is confirmed, or finds nothing to delete.
  predicate Gone(err: Option<Error>) { err.None? || err.value.fault == NotFound }

  datatype Termination = Termination(objects: Objects, calls: nat, ok: bool)

  function Terminated(name: string, o: Objects, k: nat, sky: Sky, deadline: Deadline): Termination {
    var vm := Retry(Remove(VirtualMachine, name), o, k, sky, deadline);
    var volume := Retry(Remove(DataVolume, name + "-root"), vm.objects, vm.calls, sky, deadline);
    var secret := Retry(Remove(CloudInitSecret, name + "-cloudinit"), volume.objects, volume.calls, sky, deadline);
    Termination(secret.objects, secret.calls, Gone(vm.err) && Gone(volume.err) && Gone(secret.err))
  }

  datatype Resources = Resources(vmName: string, vm: Vm, secretName: string, secret: Secret)

  datatype LaunchResult =
    | Running(name: string)
    | Refused
    | Unowned(cleaned: bool)   // the VM could not be made the Secret's owner

  // `dropped` says that the launch asked to delete its Secret.
  datatype Launching = Launching(objects: Objects, calls: nat, result: LaunchResult, dropped: bool)

  function SecretPhase(r: Resources, o: Objects, k: nat, sky: Sky, deadline: Deadline): Attempt {
    Retry(PutSecret(r.secretName, r.secret), o, k, sky, deadline)
  }

  function VmPhase(r: Resources, o: Objects, k: nat, sky: Sky, deadline: Deadline): Attempt {
    var s := SecretPhase(r, o, k, sky, deadline);
    Retry(PutVm(r.vmName, r.vm), s.objects, s.calls, sky, deadline)
  }

  function Launch(r: Resources, o: Objects, k: nat, sky: Sky, deadline: Deadline): Launching {
    var s := SecretPhase(r, o, k, sky, deadline);
    if s.err.Some? then Launching(s.objects, s.calls, Refused, false)
    else
      var v := VmPhase(r, o, k, sky, deadline);
      if v.err.Some? then
        if s.created && !v.err.value.uncertain
        then Launching(Delete(v.objects, CloudInitSecret, r.secretName, sky(v.calls)).0, v.calls + 1, Refused, true)
        else Launching(v.objects, v.calls, Refused, false)
      else
        var w := Retry(Own(r.secretName, Owner(r.vmName, v.vm.value.uid)), v.objects, v.calls, sky, deadline);
        if w.err.None? then Launching(w.objects, w.calls, Running(r.vmName), false)
        else
          // the compensation outlives the request's context
          var t := Terminated(r.vmName, w.objects, w.calls, sky, None);
          Launching(t.objects, t.calls, Unowned(t.ok), false)
  }
}
