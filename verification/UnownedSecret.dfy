// A launch is meant to return OK only if its VM owns its Secret. Unless the
// request's context ends in the middle of the handover, it does.
module UnownedSecret {
  import opened Records
  import opened ObjectStore
  import opened LaunchSpec
  import opened OwnedSecret
  import opened LaunchFacts

  predicate Interrupts(w: Weather) {
    w.Storm? && w.outage == Interrupted
  }

  lemma InterruptedRequest(name: string, owner: Owner, o: Objects, k: nat, sky: Sky)
    requires Swallowed(OwnRequests(name, owner, o, k, sky, CONFLICT_STEPS))
    ensures Interrupts(sky(k)) || Interrupts(sky(k + 1))
  {
  }

  lemma {:induction false} SwallowedIsInterrupted(
    name: string, owner: Owner, o: Objects, k: nat, sky: Sky, deadline: Deadline, steps: nat) returns (i: nat)
    requires
      var tries := OwnTries(name, owner, o, k, sky, deadline, steps);
      tries != [] && Swallowed(tries[|tries| - 1])
    ensures i >= k && Interrupts(sky(i))
    decreases steps
  {
    TryOwnEffect(name, owner, o, k, sky, CONFLICT_STEPS, None);
    var t, first := TryOwn(name, owner, o, k, sky, CONFLICT_STEPS, None), OwnRequests(name, owner, o, k, sky, CONFLICT_STEPS);
    hide TryOwn;
    if t.err.Some? && IsTransient(t.err.value) && OwnTries(name, owner, t.objects, t.calls, sky, deadline, steps - 1) != [] {
      i := SwallowedIsInterrupted(name, owner, t.objects, t.calls, sky, deadline, steps - 1);
    } else {
      InterruptedRequest(name, owner, o, k, sky);
      i := if Interrupts(sky(k)) then k else k + 1;
    }
  }

  // A launch none of whose requests is interrupted hands over what it launched.
  lemma UninterruptedLaunchOwns(r: Resources, o: Objects, k: nat, sky: Sky, deadline: Deadline)
    requires r.secretName == r.vmName + "-cloudinit"
    requires forall i :: i >= k ==> !Interrupts(sky(i))
    ensures Launch(r, o, k, sky, deadline).result.Running? ==> Launched(Launch(r, o, k, sky, deadline).objects, r)
  {
    hide LaunchSpec.Launch, LaunchDone, Launched;
    LaunchOwes(r, o, k, sky, deadline);
    if HandsOverNothing(r, o, k, sky, deadline) {
      var s, v := SecretPhase(r, o, k, sky, deadline), VmPhase(r, o, k, sky, deadline);
      PutSecretEffect(r.secretName, r.secret, o, k, sky, deadline, STEPS, None);
      PutVmEffect(r.vmName, r.vm, s.objects, s.calls, sky, deadline, STEPS, None);
      var i := SwallowedIsInterrupted(
        r.secretName, Owner(r.vmName, v.vm.value.uid), v.objects, v.calls, sky, deadline, STEPS);
      assert false;
    }
  }

  // ---- A launch that does not ---------------------------------------------------------

  // The context ends while the handover reads the Secret.
  function InterruptedSky(): Sky {
    (k: nat) => if k == 2 then Storm(Interrupted, false) else Fair
  }

  // In an empty namespace both objects are created, the third request is
  // interrupted, and the launch returns OK with a Secret nobody owns.
  lemma InterruptedLaunchOwnsNothing(r: Resources, o: Objects)
    requires o == Objects(map[], map[], {}, 1)
    ensures
      var l := Launch(r, o, 0, InterruptedSky(), Some(3));
      && l.result == Running(r.vmName) && Placed(l.objects, r) && l.objects.secrets[r.secretName] == r.secret
      && (r.secret.owner.None? ==> !Launched(l.objects, r))
  {
    var sky := InterruptedSky();
    var o1 := o.(secrets := map[r.secretName := r.secret]);
    assert SecretPhase(r, o, 0, sky, Some(3)) == Attempt(o1, 1, None, true, None);
    var vm := r.vm.(uid := 1);
    var o2 := o1.(vms := map[r.vmName := vm], nextUid := 2);
    assert VmPhase(r, o, 0, sky, Some(3)) == Attempt(o2, 2, None, true, Some(vm));
    var owner := Owner(r.vmName, 1);
    assert OwnStep(r.secretName, owner, o2, 2, sky) == Attempt(o2, 3, Some(Error(Interrupted, false)), false, None);
    assert TryOwn(r.secretName, owner, o2, 2, sky, CONFLICT_STEPS, None) == Attempt(o2, 3, None, false, None);
    assert Retry(Own(r.secretName, owner), o2, 2, sky, Some(3)) == Attempt(o2, 3, None, false, None);
  }
}
