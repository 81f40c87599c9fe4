// What the actions of a launch do to the objects, and what a launch guarantees,
// under every weather.
module LaunchFacts {
  import opened Records
  import opened ObjectStore
  import opened LaunchSpec
  import opened OwnedSecret

  // ---- What a retried action does to the objects -----------------------------------

  lemma {:induction false} PutSecretEffect(
    name: string, desired: Secret, o: Objects, k: nat, sky: Sky, deadline: Deadline, steps: nat, last: Option<Error>)
    requires steps > 0 || last.Some?
    ensures
      var t := Retried(PutSecret(name, desired), o, k, sky, deadline, steps, last);
      && (t.objects == o || (name !in o.secrets && t.objects == o.(secrets := o.secrets[name := desired])))
      && k <= t.calls <= k + 2 * steps
      && (t.err.None? ==> name in t.objects.secrets && SameSecret(t.objects.secrets[name], desired))
      && (t.created ==> name !in o.secrets && t.err.None?)
    decreases steps
  {
    if steps > 0 && !Over(deadline, k) {
      var t := TryPutSecret(name, desired, o, k, sky);
      if t.err.Some? && IsTransient(t.err.value) {
        PutSecretEffect(name, desired, t.objects, t.calls, sky, deadline, steps - 1, t.err);
      }
    }
  }

  lemma {:induction false} PutVmEffect(
    name: string, desired: Vm, o: Objects, k: nat, sky: Sky, deadline: Deadline, steps: nat, last: Option<Error>)
    requires steps > 0 || last.Some?
    ensures
      var t := Retried(PutVm(name, desired), o, k, sky, deadline, steps, last);
      && (t.objects == o
          || (name !in o.vms
              && t.objects == o.(vms := o.vms[name := desired.(uid := o.nextUid)], nextUid := o.nextUid + 1)))
      && k <= t.calls <= k + 2 * steps
      && (t.err.None? ==> Lookup(t.objects.vms, name) == t.vm && t.vm.Some? && SameVm(t.vm.value, desired))
    decreases steps
  {
    if steps > 0 && !Over(deadline, k) {
      var t := TryPutVm(name, desired, o, k, sky);
      if t.err.Some? && IsTransient(t.err.value) {
        PutVmEffect(name, desired, t.objects, t.calls, sky, deadline, steps - 1, t.err);
      }
    }
  }

  ghost predicate OwnedOrKept(o: Objects, o': Objects, name: string, owner: Owner) {
    o' == o || (name in o.secrets && o' == o.(secrets := o.secrets[name := o.secrets[name].(owner := Some(owner))]))
  }

  lemma OwnedNot(o: Objects, name: string, owner: Owner)
    ensures OwnedOrKept(o, o, name, owner)
  {
  }

  lemma OwnedTwice(a: Objects, b: Objects, c: Objects, name: string, owner: Owner)
    requires OwnedOrKept(a, b, name, owner) && OwnedOrKept(b, c, name, owner)
    ensures OwnedOrKept(a, c, name, owner)
  {
  }

  lemma OwnStepEffect(name: string, owner: Owner, o: Objects, k: nat, sky: Sky)
    ensures
      var t := OwnStep(name, owner, o, k, sky);
      OwnedOrKept(o, t.objects, name, owner) && k <= t.calls <= k + 2
  {
  }

  lemma {:induction false} TryOwnEffect(
    name: string, owner: Owner, o: Objects, k: nat, sky: Sky, steps: nat, last: Option<Error>)
    requires steps > 0 || last.Some?
    ensures
      var t := TryOwn(name, owner, o, k, sky, steps, last);
      OwnedOrKept(o, t.objects, name, owner) && k <= t.calls <= k + 2 * steps
    decreases steps
  {
    if steps > 0 {
      OwnStepEffect(name, owner, o, k, sky);
      hide OwnStep, OwnedOrKept;
      var t := OwnStep(name, owner, o, k, sky);
      if t.err.Some? && t.err.value.fault == Conflict {
        TryOwnEffect(name, owner, t.objects, t.calls, sky, steps - 1, t.err);
        OwnedTwice(o, t.objects, TryOwn(name, owner, o, k, sky, steps, last).objects, name, owner);
      }
    } else {
      OwnedNot(o, name, owner);
    }
  }

  lemma {:induction false} OwnChanges(
    name: string, owner: Owner, o: Objects, k: nat, sky: Sky, deadline: Deadline, steps: nat, last: Option<Error>)
    requires steps > 0 || last.Some?
    ensures
      var t := Retried(Own(name, owner), o, k, sky, deadline, steps, last);
      OwnedOrKept(o, t.objects, name, owner) && k <= t.calls <= k + 2 * CONFLICT_STEPS * steps
    decreases steps
  {
    hide TryOwn, TryPutSecret, TryPutVm, TryRemove, OwnedOrKept;
    if steps > 0 && !Over(deadline, k) {
      TryOwnEffect(name, owner, o, k, sky, CONFLICT_STEPS, None);
      var t := Try(Own(name, owner), o, k, sky);
      if t.err.Some? && IsTransient(t.err.value) {
        OwnChanges(name, owner, t.objects, t.calls, sky, deadline, steps - 1, t.err);
        OwnedTwice(o, t.objects, Retried(Own(name, owner), o, k, sky, deadline, steps, last).objects, name, owner);
      }
    } else {
      OwnedNot(o, name, owner);
    }
  }

  // Nothing but the Secret's owner changes. Nil means that the VM owns it,
  // unless the interruption of the last try was swallowed.
  lemma OwnEffect(name: string, owner: Owner, o: Objects, k: nat, sky: Sky, deadline: Deadline)
    ensures
      var t, tries := Retry(Own(name, owner), o, k, sky, deadline), OwnTries(name, owner, o, k, sky, deadline, STEPS);
      && OwnedOrKept(o, t.objects, name, owner) && t.calls <= k + 2 * CONFLICT_STEPS * STEPS
      && (t.err.None? && !OwnedBy(t.objects, name, owner) <==> LeftUnowned(name, owner, o, tries))
  {
    TriesOwn(name, owner, o, k, sky, deadline, STEPS, None);
    OwnChanges(name, owner, o, k, sky, deadline, STEPS, None);
    hide Retried, OwnTries, OwnedBy, SomeApplied, OwnedOrKept;
  }

  lemma {:induction false} RemoveEffect(
    kind: Kind, name: string, o: Objects, k: nat, sky: Sky, deadline: Deadline, steps: nat, last: Option<Error>)
    requires (steps > 0 || last.Some?) && (last.Some? ==> IsTransient(last.value))
    ensures
      var t := Retried(Remove(kind, name), o, k, sky, deadline, steps, last);
      && (t.objects == o || t.objects == Without(o, kind, name)) && t.calls <= k + steps
      && (Gone(t.err) ==> !Exists(t.objects, kind, name))
    decreases steps
  {
    if steps > 0 && !Over(deadline, k) {
      var t := TryRemove(kind, name, o, k, sky);
      if t.err.Some? && IsTransient(t.err.value) {
        RemoveEffect(kind, name, t.objects, t.calls, sky, deadline, steps - 1, t.err);
      }
    }
  }

  // Nothing but the VM, its volume and its Secret goes; nil means none is left,
  // so a termination may be repeated.
  lemma TerminationRemoves(name: string, o: Objects, k: nat, sky: Sky, deadline: Deadline)
    ensures
      var t := Terminated(name, o, k, sky, deadline);
      && (t.objects.vms == o.vms || t.objects.vms == o.vms - {name})
      && (t.objects.volumes == o.volumes || t.objects.volumes == o.volumes - {name + "-root"})
      && (t.objects.secrets == o.secrets || t.objects.secrets == o.secrets - {name + "-cloudinit"})
      && (t.ok ==> name !in t.objects.vms && name + "-root" !in t.objects.volumes && name + "-cloudinit" !in t.objects.secrets)
      && t.calls <= k + 3 * STEPS
  {
    hide Retried;
    RemoveEffect(VirtualMachine, name, o, k, sky, deadline, STEPS, None);
    var vm := Retry(Remove(VirtualMachine, name), o, k, sky, deadline);
    RemoveEffect(DataVolume, name + "-root", vm.objects, vm.calls, sky, deadline, STEPS, None);
    var volume := Retry(Remove(DataVolume, name + "-root"), vm.objects, vm.calls, sky, deadline);
    RemoveEffect(CloudInitSecret, name + "-cloudinit", volume.objects, volume.calls, sky, deadline, STEPS, None);
  }

  // ---- What a launch owes ------------------------------------------------------------

  // Both objects are there for this very request.
  ghost predicate Placed(o: Objects, r: Resources) {
    && r.vmName in o.vms && SameVm(o.vms[r.vmName], r.vm)
    && r.secretName in o.secrets && SameSecret(o.secrets[r.secretName], r.secret)
  }

  // And the VM owns the Secret.
  ghost predicate Launched(o: Objects, r: Resources) {
    Placed(o, r) && OwnedBy(o, r.secretName, Owner(r.vmName, o.vms[r.vmName].uid))
  }

  // An object of another request under the requested name.
  ghost predicate ForeignSecret(o: Objects, r: Resources) {
    r.secretName in o.secrets && !SameSecret(o.secrets[r.secretName], r.secret)
  }

  ghost predicate ForeignVm(o: Objects, r: Resources) {
    r.vmName in o.vms && !SameVm(o.vms[r.vmName], r.vm)
  }

  // A VM of this very request.
  ghost predicate VmHere(o: Objects, r: Resources) {
    r.vmName in o.vms && SameVm(o.vms[r.vmName], r.vm)
  }

  // Nothing but the request's own objects changed, and those not if they
  // belong to another request.
  ghost predicate OthersKept(o: Objects, o': Objects, r: Resources) {
    && (forall k :: k != r.secretName || ForeignSecret(o, r) ==> Lookup(o'.secrets, k) == Lookup(o.secrets, k))
    && (forall k :: k != r.vmName || ForeignVm(o, r) ==> Lookup(o'.vms, k) == Lookup(o.vms, k))
    && (forall v :: v != r.vmName + "-root" || ForeignVm(o, r) || ForeignSecret(o, r) ==> (v in o'.volumes <==> v in o.volumes))
  }

  // What a launch owes for the objects it found: running means placed; others
  // are kept; a refusal takes away nothing that was there and no volume; a
  // failed handover whose cleanup is confirmed leaves none of the objects.
  ghost predicate LaunchDone(o: Objects, o': Objects, r: Resources, result: LaunchResult) {
    && (result.Running? ==>
          && result.name == r.vmName && Placed(o', r)
          && o'.vms == (if r.vmName in o.vms then o.vms else o.vms[r.vmName := r.vm.(uid := o.nextUid)]))
    && OthersKept(o, o', r)
    && (result.Refused? ==>
          && (r.secretName in o.secrets ==> o'.secrets == o.secrets) && (r.vmName in o.vms ==> o'.vms == o.vms)
          && o'.volumes == o.volumes)
    && (result.Unowned? && result.cleaned ==>
          r.secretName !in o'.secrets && r.vmName !in o'.vms && r.vmName + "-root" !in o'.volumes)
  }

  // The handover of this launch says nil and leaves the Secret unowned.
  ghost predicate HandsOverNothing(r: Resources, o: Objects, k: nat, sky: Sky, deadline: Deadline) {
    var v := VmPhase(r, o, k, sky, deadline);
    && SecretPhase(r, o, k, sky, deadline).err.None? && v.err.None?
    && var owner := Owner(r.vmName, v.vm.value.uid);
       LeftUnowned(r.secretName, owner, v.objects, OwnTries(r.secretName, owner, v.objects, v.calls, sky, deadline, STEPS))
  }

  lemma LaunchOwes(r: Resources, o: Objects, k: nat, sky: Sky, deadline: Deadline)
    requires r.secretName == r.vmName + "-cloudinit"
    ensures
      var l := Launch(r, o, k, sky, deadline);
      && LaunchDone(o, l.objects, r, l.result) && l.calls <= k + 75
      && (l.result.Running? && !Launched(l.objects, r) <==> HandsOverNothing(r, o, k, sky, deadline))
  {
    hide Retried, Terminated, LaunchDone;
    var s := SecretPhase(r, o, k, sky, deadline);
    PutSecretEffect(r.secretName, r.secret, o, k, sky, deadline, STEPS, None);
    if s.err.Some? {
      RefusedDone(o, s.objects, r);
    } else {
      var v := VmPhase(r, o, k, sky, deadline);
      PutVmEffect(r.vmName, r.vm, s.objects, s.calls, sky, deadline, STEPS, None);
      if v.err.Some? {
        RefusedDone(o, Launch(r, o, k, sky, deadline).objects, r);
      } else {
        HandoverOwes(r, o, s.objects, v, sky, deadline);
      }
    }
  }

  lemma RefusedDone(o: Objects, o': Objects, r: Resources)
    requires r.secretName in o.secrets ==> o'.secrets == o.secrets
    requires forall k :: k != r.secretName ==> Lookup(o'.secrets, k) == Lookup(o.secrets, k)
    requires r.vmName in o.vms ==> o'.vms == o.vms
    requires forall k :: k != r.vmName ==> Lookup(o'.vms, k) == Lookup(o.vms, k)
    requires o'.volumes == o.volumes
    ensures LaunchDone(o, o', r, Refused)
  {
  }

  // Both objects are verified; what making the VM own the Secret leads to.
  lemma HandoverOwes(r: Resources, o: Objects, verified: Objects, v: Attempt, sky: Sky, deadline: Deadline)
    requires r.secretName == r.vmName + "-cloudinit"
    requires verified == o || (r.secretName !in o.secrets && verified == o.(secrets := o.secrets[r.secretName := r.secret]))
    requires r.secretName in verified.secrets && SameSecret(verified.secrets[r.secretName], r.secret)
    requires v.objects == verified
             || (r.vmName !in verified.vms
                 && v.objects == verified.(vms := verified.vms[r.vmName := r.vm.(uid := verified.nextUid)], nextUid := verified.nextUid + 1))
    requires v.vm.Some? && Lookup(v.objects.vms, r.vmName) == v.vm && SameVm(v.vm.value, r.vm)
    ensures
      var w := Retry(Own(r.secretName, Owner(r.vmName, v.vm.value.uid)), v.objects, v.calls, sky, deadline);
      var t := LaunchSpec.Terminated(r.vmName, w.objects, w.calls, sky, None);
      && (w.err.None? ==> LaunchDone(o, w.objects, r, Running(r.vmName)))
      && (w.err.None? && !Launched(w.objects, r)
          <==> LeftUnowned(r.secretName, Owner(r.vmName, v.vm.value.uid), v.objects,
                           OwnTries(r.secretName, Owner(r.vmName, v.vm.value.uid), v.objects, v.calls, sky, deadline, STEPS)))
      && (w.err.Some? ==> LaunchDone(o, t.objects, r, Unowned(t.ok)))
      && w.calls <= v.calls + 2 * CONFLICT_STEPS * STEPS && t.calls <= w.calls + 3 * STEPS
  {
    hide Retried, LaunchSpec.Terminated, LaunchDone;
    var owner := Owner(r.vmName, v.vm.value.uid);
    OwnEffect(r.secretName, owner, v.objects, v.calls, sky, deadline);
    var w := Retry(Own(r.secretName, owner), v.objects, v.calls, sky, deadline);
    TerminationRemoves(r.vmName, w.objects, w.calls, sky, None);
    if w.err.None? {
      RunningDone(o, verified, v.objects, w.objects, r);
    } else {
      UnownedDone(o, verified, v.objects, w.objects, LaunchSpec.Terminated(r.vmName, w.objects, w.calls, sky, None), r);
    }
  }

  lemma RunningDone(o: Objects, verified: Objects, placed: Objects, o': Objects, r: Resources)
    requires verified == o || (r.secretName !in o.secrets && verified == o.(secrets := o.secrets[r.secretName := r.secret]))
    requires r.secretName in verified.secrets && SameSecret(verified.secrets[r.secretName], r.secret)
    requires VmHere(placed, r)
    requires placed == verified
             || (r.vmName !in verified.vms
                 && placed == verified.(vms := verified.vms[r.vmName := placed.vms[r.vmName]], nextUid := placed.nextUid))
    requires OwnedOrKept(placed, o', r.secretName, Owner(r.vmName, placed.vms[r.vmName].uid))
    requires r.vmName !in verified.vms ==> placed.vms[r.vmName] == r.vm.(uid := verified.nextUid)
    ensures LaunchDone(o, o', r, Running(r.vmName))
    ensures Launched(o', r) <==> OwnedBy(o', r.secretName, Owner(r.vmName, placed.vms[r.vmName].uid))
  {
  }

  lemma UnownedDone(o: Objects, verified: Objects, placed: Objects, owned: Objects, t: Termination, r: Resources)
    requires r.secretName == r.vmName + "-cloudinit"
    requires verified == o || (r.secretName !in o.secrets && verified == o.(secrets := o.secrets[r.secretName := r.secret]))
    requires r.secretName in verified.secrets && SameSecret(verified.secrets[r.secretName], r.secret)
    requires VmHere(placed, r)
    requires placed == verified
             || (r.vmName !in verified.vms
                 && placed == verified.(vms := verified.vms[r.vmName := placed.vms[r.vmName]], nextUid := placed.nextUid))
    requires OwnedOrKept(placed, owned, r.secretName, Owner(r.vmName, placed.vms[r.vmName].uid))
    requires t.objects.vms == owned.vms || t.objects.vms == owned.vms - {r.vmName}
    requires t.objects.volumes == owned.volumes || t.objects.volumes == owned.volumes - {r.vmName + "-root"}
    requires t.objects.secrets == owned.secrets || t.objects.secrets == owned.secrets - {r.secretName}
    requires t.ok ==> r.vmName !in t.objects.vms && r.vmName + "-root" !in t.objects.volumes && r.secretName !in t.objects.secrets
    ensures LaunchDone(o, t.objects, r, Unowned(t.ok))
  {
  }

  // ---- Launches without faults ---------------------------------------------------------

  ghost predicate FairFrom(sky: Sky, k: nat) {
    forall i :: i >= k ==> sky(i) == Fair
  }

  // In fair weather a launch is refused exactly for foreign objects and then
  // leaves everything as it was; repeating a launch changes nothing.
  lemma FairLaunch(r: Resources, o: Objects, k: nat, sky: Sky)
    requires FairFrom(sky, k)
    ensures
      var l := Launch(r, o, k, sky, None);
      && (l.result.Running? <==> !ForeignSecret(o, r) && !ForeignVm(o, r))
      && (!l.result.Running? ==> l.result.Refused? && l.objects.secrets == o.secrets && l.objects.vms == o.vms && l.objects.volumes == o.volumes)
      && (Launched(o, r) ==> l.objects == o)
  {
    hide Terminated, Retried;
    FairPutSecret(r.secretName, r.secret, o, k, sky);
    var s := SecretPhase(r, o, k, sky, None);
    if s.err.None? {
      FairPutVm(r.vmName, r.vm, s.objects, s.calls, sky);
      var v := VmPhase(r, o, k, sky, None);
      if v.err.None? {
        FairOwn(r.secretName, Owner(r.vmName, v.vm.value.uid), v.objects, v.calls, sky);
      } else {
        assert o.secrets[r.secretName := r.secret] - {r.secretName} == o.secrets - {r.secretName};
      }
    }
  }

  lemma FairPutSecret(name: string, desired: Secret, o: Objects, k: nat, sky: Sky)
    requires FairFrom(sky, k)
    ensures
      var t := Retry(PutSecret(name, desired), o, k, sky, None);
      && t.calls >= k
      && (t.err.None? <==> (name in o.secrets ==> SameSecret(o.secrets[name], desired)))
      && t.created == (name !in o.secrets)
      && t.objects == if name in o.secrets then o else o.(secrets := o.secrets[name := desired])
  {
    assert sky(k) == Fair && sky(k + 1) == Fair;
    assert Retry(PutSecret(name, desired), o, k, sky, None).err == TryPutSecret(name, desired, o, k, sky).err;
  }

  lemma FairPutVm(name: string, desired: Vm, o: Objects, k: nat, sky: Sky)
    requires FairFrom(sky, k)
    ensures
      var t := Retry(PutVm(name, desired), o, k, sky, None);
      && t.calls >= k
      && (t.err.None? <==> (name in o.vms ==> SameVm(o.vms[name], desired)))
      && (t.err.Some? ==> !t.err.value.uncertain)
      && (name in o.vms ==> t.objects == o && (t.err.None? ==> t.vm == Some(o.vms[name])))
      && t.objects.secrets == o.secrets && t.objects.volumes == o.volumes
  {
    assert sky(k) == Fair && sky(k + 1) == Fair;
    assert Retry(PutVm(name, desired), o, k, sky, None).err == TryPutVm(name, desired, o, k, sky).err;
  }

  lemma FairOwn(name: string, owner: Owner, o: Objects, k: nat, sky: Sky)
    requires FairFrom(sky, k) && name in o.secrets
    ensures
      var t := Retry(Own(name, owner), o, k, sky, None);
      t.err.None? && t.objects == o.(secrets := o.secrets[name := o.secrets[name].(owner := Some(owner))])
  {
    assert sky(k) == Fair && sky(k + 1) == Fair;
    assert TryOwn(name, owner, o, k, sky, CONFLICT_STEPS, None).err.None?;
  }

  // ---- Retries and compensations ---------------------------------------------------------

  // Up to four transient failures in a row are retried away; the fifth is the
  // outcome.
  lemma {:induction false} FiveTries(
    kind: Kind, name: string, o: Objects, k: nat, sky: Sky, steps: nat, last: Option<Error>, failures: nat)
    requires steps > 0 || last.Some?
    requires forall i :: k <= i < k + failures ==> sky(i) == Storm(Transient, false)
    requires failures < steps ==> sky(k + failures) == Fair
    requires failures <= steps && (last.Some? ==> last.value.fault == Transient)
    ensures
      var t := Retried(Remove(kind, name), o, k, sky, None, steps, last);
      if failures < steps then Gone(t.err) && t.objects == Without(o, kind, name) && t.calls == k + failures + 1
      else t.err.Some? && t.err.value.fault == Transient && t.objects == o && t.calls == k + steps
    decreases steps
  {
    if steps > 0 {
      var t := TryRemove(kind, name, o, k, sky);
      if failures > 0 {
        FiveTries(kind, name, o, k + 1, sky, steps - 1, t.err, failures - 1);
      } else {
        GoneAlready(o, kind, name);
      }
    }
  }

  lemma GoneAlready(o: Objects, kind: Kind, name: string)
    ensures !Exists(o, kind, name) ==> Without(o, kind, name) == o
  {
    if !Exists(o, kind, name) {
      match kind
      case VirtualMachine => assert o.vms - {name} == o.vms;
      case DataVolume => assert o.volumes - {name} == o.volumes;
      case CloudInitSecret => assert o.secrets - {name} == o.secrets;
    }
  }

  // As many as the adapter makes.
  lemma RemovesWithinFive(kind: Kind, name: string, o: Objects, k: nat, sky: Sky, failures: nat)
    requires failures < 5 && (forall i :: k <= i < k + failures ==> sky(i) == Storm(Transient, false)) && sky(k + failures) == Fair
    ensures
      var t := Retry(Remove(kind, name), o, k, sky, None);
      Gone(t.err) && t.objects == Without(o, kind, name) && t.calls == k + failures + 1
  {
    FiveTries(kind, name, o, k, sky, STEPS, None, failures);
  }

  lemma GivesUpAfterFive(kind: Kind, name: string, o: Objects, k: nat, sky: Sky)
    requires forall i :: k <= i < k + 5 ==> sky(i) == Storm(Transient, false)
    ensures
      var t := Retry(Remove(kind, name), o, k, sky, None);
      t.err.Some? && t.err.value.fault == Transient && t.objects == o && t.calls == k + 5
  {
    FiveTries(kind, name, o, k, sky, STEPS, None, 5);
  }

  lemma FairTermination(name: string, o: Objects, k: nat, sky: Sky)
    requires FairFrom(sky, k)
    ensures Terminated(name, o, k, sky, None).ok
  {
    RemovesWithinFive(VirtualMachine, name, o, k, sky, 0);
    var vm := Retry(Remove(VirtualMachine, name), o, k, sky, None);
    RemovesWithinFive(DataVolume, name + "-root", vm.objects, vm.calls, sky, 0);
    var volume := Retry(Remove(DataVolume, name + "-root"), vm.objects, vm.calls, sky, None);
    RemovesWithinFive(CloudInitSecret, name + "-cloudinit", volume.objects, volume.calls, sky, 0);
    hide Retried;
  }

  // What a failed launch does about its objects does not depend on the context
  // of its request: in fair weather a failed handover is cleaned up, and a
  // dropped Secret is gone, however early the context ended.
  lemma CompensationOutlivesContext(r: Resources, o: Objects, k: nat, sky: Sky, deadline: Deadline)
    ensures
      var l, v := Launch(r, o, k, sky, deadline), VmPhase(r, o, k, sky, deadline);
      && (l.dropped && sky(v.calls) == Fair ==> r.secretName !in l.objects.secrets)
      && (l.result.Unowned? && v.vm.Some?
          && FairFrom(sky, Retry(Own(r.secretName, Owner(r.vmName, v.vm.value.uid)), v.objects, v.calls, sky, deadline).calls)
          ==> l.result.cleaned)
  {
    hide Retried, Terminated, FairFrom;
    var v := VmPhase(r, o, k, sky, deadline);
    if v.err.None? {
      var w := Retry(Own(r.secretName, Owner(r.vmName, v.vm.value.uid)), v.objects, v.calls, sky, deadline);
      if FairFrom(sky, w.calls) { FairTermination(r.vmName, w.objects, w.calls, sky); }
    }
  }
}
