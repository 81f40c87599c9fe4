// KubeAPIProvider.Launch and Terminate, request by request: create or verify the
// Secret and the VirtualMachine of a request, make the VM own the Secret, and
// compensate.
module KubeApi {
  import opened Records
  import opened ObjectStore
  import opened LaunchSpec
  import opened LaunchFacts
  import opened Cluster

  datatype VmSpec = VmSpec(
    resourceKey: string, requestDigest: string, sandboxLabel: string, cloudInit: string, diskSize: string, rest: string)

  function LowerChar(c: char): char {
    if 'A' <= c <= 'Z' then ((c as int) - ('A' as int) + ('a' as int)) as char else c
  }

  function Lower(s: string): string {
    if s == "" then "" else [LowerChar(s[0])] + Lower(s[1..])
  }

  // The digest of the request is on both objects; the VM also carries the
  // hash of its sandbox id.
  function BuildResources(spec: VmSpec, parsesQuantity: string -> bool): Option<Resources> {
    if |spec.resourceKey| < 32 || |spec.requestDigest| != 64 || !parsesQuantity(spec.diskSize) then None
    else
      var vmName := "openshell-" + Lower(spec.resourceKey[..32]);
      Some(Resources(
        vmName, Vm(spec.requestDigest, spec.sandboxLabel, spec.rest, 0),
        vmName + "-cloudinit", Secret(spec.requestDigest, spec.cloudInit, None)))
  }

  // The same letter, upper or lower case.
  predicate SameLetter(a: char, b: char) {
    || a == b
    || ('A' <= a <= 'Z' && b as int == a as int + 32)
    || ('A' <= b <= 'Z' && a as int == b as int + 32)
  }

  predicate SameLetters(a: string, b: string) {
    |a| == |b| && forall i :: 0 <= i < |a| ==> SameLetter(a[i], b[i])
  }

  lemma {:induction false} LowerAgrees(a: string, b: string)
    ensures Lower(a) == Lower(b) <==> SameLetters(a, b)
    ensures |Lower(a)| == |a| && |Lower(b)| == |b|
    decreases |a| + |b|
  {
    if a != "" && b != "" {
      LowerAgrees(a[1..], b[1..]);
      assert Lower(a)[1..] == Lower(a[1..]) && Lower(b)[1..] == Lower(b[1..]);
      assert Lower(a)[0] == LowerChar(a[0]) && Lower(b)[0] == LowerChar(b[0]);
      assert a == [a[0]] + a[1..] && b == [b[0]] + b[1..];
    } else if a != "" {
      LowerAgrees(a[1..], b);
    } else if b != "" {
      LowerAgrees(a, b[1..]);
    }
  }

  // The name of a request's VM: a prefix and the first half of its key.
  ghost predicate NamedFor(name: string, resourceKey: string) {
    |resourceKey| >= 32 && |name| == 42 && name[..10] == "openshell-" && name[10..] == Lower(resourceKey[..32])
    && SameLetters(name[10..], resourceKey[..32]) && forall i :: 0 <= i < 42 ==> !('A' <= name[i] <= 'Z')
  }

  lemma {:induction false} LowerIsLower(s: string)
    ensures |Lower(s)| == |s| && SameLetters(Lower(s), s) && forall i :: 0 <= i < |s| ==> !('A' <= Lower(s)[i] <= 'Z')
    decreases |s|
  {
    if s != "" {
      LowerIsLower(s[1..]);
      assert Lower(s)[1..] == Lower(s[1..]);
    }
  }

  // What is built from a request: refused exactly for a short key, a digest of
  // the wrong length or a disk size that does not parse; otherwise both objects
  // carry its digest, the VM its sandbox label, the Secret its cloud-init.
  lemma BuiltFrom(spec: VmSpec, parsesQuantity: string -> bool)
    ensures BuildResources(spec, parsesQuantity).None? <==>
              |spec.resourceKey| < 32 || |spec.requestDigest| != 64 || !parsesQuantity(spec.diskSize)
    ensures BuildResources(spec, parsesQuantity).Some? ==>
              var r := BuildResources(spec, parsesQuantity).value;
              && NamedFor(r.vmName, spec.resourceKey) && r.secretName == r.vmName + "-cloudinit"
              && r.vm == Vm(spec.requestDigest, spec.sandboxLabel, spec.rest, 0)
              && r.secret == Secret(spec.requestDigest, spec.cloudInit, None)
  {
    if BuildResources(spec, parsesQuantity).Some? {
      var half := spec.resourceKey[..32];
      LowerIsLower(half);
      var name := "openshell-" + Lower(half);
      assert name[..10] == "openshell-" && name[10..] == Lower(half);
      forall i | 0 <= i < 42 ensures !('A' <= name[i] <= 'Z') {
        if i >= 10 { assert name[i] == Lower(half)[i - 10]; }
      }
    }
  }

  // Two accepted requests get one VM name exactly if the first halves of their
  // keys agree up to letter case.
  lemma NamesAgree(a: VmSpec, b: VmSpec, parsesQuantity: string -> bool)
    requires BuildResources(a, parsesQuantity).Some? && BuildResources(b, parsesQuantity).Some?
    ensures BuildResources(a, parsesQuantity).value.vmName == BuildResources(b, parsesQuantity).value.vmName <==>
              SameLetters(a.resourceKey[..32], b.resourceKey[..32])
  {
    LowerAgrees(a.resourceKey[..32], b.resourceKey[..32]);
    BuiltFrom(a, parsesQuantity);
    BuiltFrom(b, parsesQuantity);
  }

  // What a launch that is running has left under its name.
  ghost predicate RunningFrom(o: Objects, o': Objects, r: Resources, name: string) {
    && name == r.vmName && name in o'.vms && o'.vms[name].digest == r.vm.digest && o'.vms[name].sandboxLabel == r.vm.sandboxLabel
    && (name !in o.vms ==> o'.vms[name].body == r.vm.body)
    && r.secretName in o'.secrets
    && o'.secrets[r.secretName].digest == r.secret.digest && o'.secrets[r.secretName].userdata == r.secret.userdata
  }

  lemma RunningHolds(o: Objects, o': Objects, r: Resources, result: LaunchResult)
    requires LaunchDone(o, o', r, result)
    ensures result.Running? ==> RunningFrom(o, o', r, result.name)
  {
  }

  class KubeApiProvider {
    const cluster: Cluster
    const parsesQuantity: string -> bool

    constructor (cluster: Cluster, parsesQuantity: string -> bool)
      ensures this.cluster == cluster && this.parsesQuantity == parsesQuantity
    {
      this.cluster, this.parsesQuantity := cluster, parsesQuantity;
    }

    // What an attempt left, with what it returned.
    ghost function Left(err: Option<Error>, created: bool, vm: Option<Vm>): Attempt
      reads cluster
    {
      Attempt(cluster.objects, cluster.calls, err, created, vm)
    }

    // ---- One try of each action ------------------------------------------------

    method CreateOrVerifySecretOnce(name: string, desired: Secret) returns (err: Option<Error>, created: bool)
      modifies cluster
      ensures Left(err, created, None) ==
              TryPutSecret(name, desired, old(cluster.objects), old(cluster.calls), cluster.forecast)
    {
      var createErr := cluster.CreateSecret(name, desired);
      if createErr.None? { return None, true; }
      if createErr.value != AlreadyExists && createErr.value != Transient {
        return Some(Error(createErr.value, false)), false;
      }
      var existing, getErr := cluster.GetSecret(name);
      if getErr == Some(NotFound) && createErr.value == Transient { return Some(Error(createErr.value, false)), false; }
      if getErr.Some? { return Some(Error(getErr.value, createErr.value == Transient)), false; }
      if existing.value.digest != desired.digest || existing.value.userdata != desired.userdata {
        return Some(Error(Conflict, false)), false;
      }
      return None, false;
    }

    method CreateOrVerifyVmOnce(name: string, desired: Vm) returns (err: Option<Error>, created: bool, vm: Option<Vm>)
      modifies cluster
      ensures Left(err, created, vm) ==
              TryPutVm(name, desired, old(cluster.objects), old(cluster.calls), cluster.forecast)
    {
      var createdVm, createErr := cluster.CreateVm(name, desired);
      if createErr.None? { return None, true, createdVm; }
      if createErr.value != AlreadyExists && createErr.value != Transient {
        return Some(Error(createErr.value, false)), false, None;
      }
      var existing, getErr := cluster.GetVm(name);
      if getErr == Some(NotFound) && createErr.value == Transient { return Some(Error(createErr.value, false)), false, None; }
      if getErr.Some? { return Some(Error(getErr.value, createErr.value == Transient)), false, None; }
      if existing.value.digest != desired.digest || existing.value.sandboxLabel != desired.sandboxLabel {
        return Some(Error(Conflict, false)), false, None;
      }
      return None, false, existing;
    }

    // Read, set the owner, write back.
    method OwnTry(name: string, owner: Owner) returns (err: Option<Error>)
      modifies cluster
      ensures Left(err, false, None) == OwnStep(name, owner, old(cluster.objects), old(cluster.calls), cluster.forecast)
    {
      var secret, getErr := cluster.GetSecret(name);
      if getErr.Some? { return Some(Error(getErr.value, false)); }
      var updateErr := cluster.UpdateSecret(name, secret.value.(owner := Some(owner)));
      return if updateErr.None? then None else Some(Error(updateErr.value, false));
    }

    // retry.RetryOnConflict: again while the write conflicts.
    method OwnOnce(name: string, owner: Owner) returns (err: Option<Error>)
      modifies cluster
      ensures Left(err, false, None) ==
              TryOwn(name, owner, old(cluster.objects), old(cluster.calls), cluster.forecast, CONFLICT_STEPS, None)
    {
      hide OwnStep;
      err := None;
      for step := 0 to CONFLICT_STEPS
        invariant step == 0 ==> err.None?
        invariant TryOwn(name, owner, cluster.objects, cluster.calls, cluster.forecast, CONFLICT_STEPS - step, err) ==
                  TryOwn(name, owner, old(cluster.objects), old(cluster.calls), cluster.forecast, CONFLICT_STEPS, None)
      {
        var conflict := err;
        err := OwnTry(name, owner);
        if err.None? { return; }
        if err.value.fault == Interrupted { return conflict; }
        if err.value.fault != Conflict { return; }
      }
    }

    method RemoveOnce(kind: Kind, name: string) returns (err: Option<Error>)
      modifies cluster
      ensures Left(err, false, None) == TryRemove(kind, name, old(cluster.objects), old(cluster.calls), cluster.forecast)
    {
      var fault := cluster.Delete(kind, name);
      err := if fault.None? then None else Some(Error(fault.value, false));
    }

    method TryOnce(action: Action) returns (err: Option<Error>, created: bool, vm: Option<Vm>)
      modifies cluster
      ensures Left(err, created, vm) == Try(action, old(cluster.objects), old(cluster.calls), cluster.forecast)
    {
      hide TryPutSecret, TryPutVm, TryOwn, TryRemove;
      created, vm := false, None;
      match action {
        case PutSecret(name, desired) => err, created := CreateOrVerifySecretOnce(name, desired);
        case PutVm(name, desired) => err, created, vm := CreateOrVerifyVmOnce(name, desired);
        case Own(name, owner) => err := OwnOnce(name, owner);
        case Remove(kind, name) => err := RemoveOnce(kind, name);
      }
    }

    // Five tries at most, while they fail transiently and the context lasts.
    method RetryWithBackoff(action: Action, deadline: Deadline) returns (err: Option<Error>, created: bool, vm: Option<Vm>)
      modifies cluster
      ensures Left(err, created, vm) == Retry(action, old(cluster.objects), old(cluster.calls), cluster.forecast, deadline)
    {
      hide Try;
      var lastErr: Option<Error> := None;
      for step := 0 to STEPS
        invariant step > 0 ==> lastErr.Some?
        invariant Retried(action, cluster.objects, cluster.calls, cluster.forecast, deadline, STEPS - step, lastErr) ==
                  Retry(action, old(cluster.objects), old(cluster.calls), cluster.forecast, deadline)
      {
        if Over(deadline, cluster.calls) { return Some(Reported(Error(Interrupted, false), lastErr)), false, None; }
        err, created, vm := TryOnce(action);
        if err.None? { return; }
        if !IsTransient(err.value) {
          err := Some(Reported(err.value, lastErr));
          return;
        }
        lastErr := err;
      }
      return lastErr, false, None;
    }

    // ---- Terminate and Launch ----------------------------------------------------

    method Terminate(name: string, deadline: Deadline) returns (ok: bool)
      modifies cluster
      ensures Termination(cluster.objects, cluster.calls, ok) ==
              Terminated(name, old(cluster.objects), old(cluster.calls), cluster.forecast, deadline)
    {
      hide Retried;
      ok := true;
      var vmErr, _, _ := RetryWithBackoff(Remove(VirtualMachine, name), deadline);
      if vmErr.Some? && vmErr.value.fault != NotFound { ok := false; }
      var volumeErr, _, _ := RetryWithBackoff(Remove(DataVolume, name + "-root"), deadline);
      if volumeErr.Some? && volumeErr.value.fault != NotFound { ok := false; }
      var secretErr, _, _ := RetryWithBackoff(Remove(CloudInitSecret, name + "-cloudinit"), deadline);
      if secretErr.Some? && secretErr.value.fault != NotFound { ok := false; }
    }

    method Place(r: Resources, deadline: Deadline) returns (result: LaunchResult, ghost dropped: bool)
      modifies cluster
      ensures Launching(cluster.objects, cluster.calls, result, dropped) ==
              LaunchSpec.Launch(r, old(cluster.objects), old(cluster.calls), cluster.forecast, deadline)
    {
      hide Retried, Terminated;
      dropped := false;
      var secretErr, secretCreated, _ := RetryWithBackoff(PutSecret(r.secretName, r.secret), deadline);
      if secretErr.Some? { return Refused, false; }
      var vmErr, _, vm := RetryWithBackoff(PutVm(r.vmName, r.vm), deadline);
      if vmErr.Some? {
        if secretCreated && !vmErr.value.uncertain {
          var _ := cluster.Delete(CloudInitSecret, r.secretName);
          dropped := true;
        }
        return Refused, dropped;
      }
      var ownErr, _, _ := RetryWithBackoff(Own(r.secretName, Owner(r.vmName, vm.value.uid)), deadline);
      if ownErr.Some? {
        // the cleanup outlives the request's context
        var cleaned := Terminate(r.vmName, None);
        return Unowned(cleaned), false;
      }
      return Running(r.vmName), false;
    }

    // A running result means both objects are there for this very request,
    // however many requests broke on the way, and the VM owns the Secret unless
    // an interruption of the handover was swallowed. Objects of other requests
    // and names are kept, a refusal takes away nothing that was there, and a
    // failed handover whose cleanup is confirmed leaves nothing.
    method Launch(spec: VmSpec, deadline: Deadline) returns (result: LaunchResult, ghost dropped: bool)
      modifies cluster
      ensures |spec.resourceKey| < 32 || |spec.requestDigest| != 64 || !parsesQuantity(spec.diskSize) ==>
                result.Refused? && unchanged(cluster)
      ensures result.Running? ==>
                && NamedFor(result.name, spec.resourceKey)
                && var name, o, o' := result.name, old(cluster.objects), cluster.objects;
                && name in o'.vms && o'.vms[name].digest == spec.requestDigest && o'.vms[name].sandboxLabel == spec.sandboxLabel
                && (name !in o.vms ==> o'.vms[name].body == spec.rest)
                && name + "-cloudinit" in o'.secrets
                && o'.secrets[name + "-cloudinit"].digest == spec.requestDigest
                && o'.secrets[name + "-cloudinit"].userdata == spec.cloudInit
      ensures BuildResources(spec, parsesQuantity).None? ==> result.Refused? && unchanged(cluster)
      ensures BuildResources(spec, parsesQuantity).Some? ==>
                var r := BuildResources(spec, parsesQuantity).value;
                && LaunchDone(old(cluster.objects), cluster.objects, r, result)
                && (result.Running? && !Launched(cluster.objects, r) <==>
                    HandsOverNothing(r, old(cluster.objects), old(cluster.calls), cluster.forecast, deadline))
                && Launching(cluster.objects, cluster.calls, result, dropped) ==
                   LaunchSpec.Launch(r, old(cluster.objects), old(cluster.calls), cluster.forecast, deadline)
      ensures cluster.calls <= old(cluster.calls) + 75
    {
      hide LaunchSpec.Launch, LaunchDone, Launched, HandsOverNothing, BuildResources, NamedFor;
      BuiltFrom(spec, parsesQuantity);
      var built := BuildResources(spec, parsesQuantity);
      if built.None? { return Refused, false; }
      LaunchOwes(built.value, cluster.objects, cluster.calls, cluster.forecast, deadline);
      result, dropped := Place(built.value, deadline);
      assert result.Running? ==> RunningFrom(old(cluster.objects), cluster.objects, built.value, result.name) by {
        RunningHolds(old(cluster.objects), cluster.objects, built.value, result);
      }
    }
  }
}
