// A launch is meant to delete the Secret it created only if its VM was not
// created: while it cannot tell, its error stays uncertain and the Secret stays.
// This does not hold; here is exactly when it fails.
module DroppedSecret {
  import opened Records
  import opened ObjectStore
  import opened LaunchSpec
  import opened LaunchFacts

  // What one try to create the VM met: the answer to the create, whether it was
  // applied, and the answer to the lookup, if there was one.
  datatype VmTry = VmTry(createErr: Option<Fault>, applied: bool, looked: bool, lookupErr: Option<Fault>)

  function VmTryOf(name: string, desired: Vm, o: Objects, k: nat, sky: Sky): VmTry {
    var (o', createErr) := CreateVm(o, name, desired, sky(k));
    if createErr == Some(AlreadyExists) || createErr == Some(Transient)
    then VmTry(createErr, o' != o, true, GetVm(o', name, sky(k + 1)).1)
    else VmTry(createErr, o' != o, false, None)
  }

  // The tries of a retried create of the VM.
  function VmTries(name: string, desired: Vm, o: Objects, k: nat, sky: Sky, deadline: Deadline, steps: nat): seq<VmTry>
    decreases steps
  {
    if steps == 0 || Over(deadline, k) then []
    else
      var t := TryPutVm(name, desired, o, k, sky);
      [VmTryOf(name, desired, o, k, sky)]
      + if t.err.Some? && IsTransient(t.err.value) then VmTries(name, desired, t.objects, t.calls, sky, deadline, steps - 1) else []
  }

  // The try cannot tell whether its create was applied: the create failed
  // transiently and the lookup gave no answer.
  predicate Undecided(t: VmTry) {
    t.createErr == Some(Transient) && t.lookupErr.Some? && t.lookupErr != Some(NotFound)
  }

  predicate InterruptedTry(t: VmTry) {
    if t.looked then t.lookupErr == Some(Interrupted) else t.createErr == Some(Interrupted)
  }

  // The try whose error the retries report: the last, or the one before it if
  // the last was interrupted.
  function Deciding(tries: seq<VmTry>): VmTry
    requires tries != []
  {
    var n := |tries|;
    if n > 1 && InterruptedTry(tries[n - 1]) then tries[n - 2] else tries[n - 1]
  }

  ghost predicate SomeApplied(tries: seq<VmTry>) {
    exists i :: 0 <= i < |tries| && tries[i].applied
  }

  lemma TryPresence(name: string, desired: Vm, o: Objects, k: nat, sky: Sky)
    ensures
      var t, tr := TryPutVm(name, desired, o, k, sky), VmTryOf(name, desired, o, k, sky);
      (name in t.objects.vms && SameVm(t.objects.vms[name], desired)) <==>
        (name in o.vms && SameVm(o.vms[name], desired)) || tr.applied
  {
    if CreateVm(o, name, desired, sky(k)).0 != o {
      assert name !in o.vms;
    }
    if name !in o.vms {
      var changed := o.(vms := o.vms[name := desired.(uid := o.nextUid)], nextUid := o.nextUid + 1);
      assert changed.nextUid != o.nextUid;
    }
  }

  // A VM of this request is there after the retries exactly if it was there
  // before or one of their creates was applied.
  lemma {:induction false} PresentIfApplied(
    name: string, desired: Vm, o: Objects, k: nat, sky: Sky, deadline: Deadline, steps: nat, last: Option<Error>)
    requires steps > 0 || last.Some?
    ensures
      var t := Retried(PutVm(name, desired), o, k, sky, deadline, steps, last);
      (name in t.objects.vms && SameVm(t.objects.vms[name], desired)) <==>
        (name in o.vms && SameVm(o.vms[name], desired)) || SomeApplied(VmTries(name, desired, o, k, sky, deadline, steps))
    decreases steps
  {
    if steps > 0 && !Over(deadline, k) {
      TryPresence(name, desired, o, k, sky);
      var t, tr := TryPutVm(name, desired, o, k, sky), VmTryOf(name, desired, o, k, sky);
      var tries := VmTries(name, desired, o, k, sky, deadline, steps);
      hide TryPutVm, VmTryOf;
      if t.err.Some? && IsTransient(t.err.value) {
        PresentIfApplied(name, desired, t.objects, t.calls, sky, deadline, steps - 1, t.err);
        var rest := VmTries(name, desired, t.objects, t.calls, sky, deadline, steps - 1);
        AppliedFirstOrLater(tr, rest);
        assert tries == [tr] + rest;
      } else {
        AppliedFirstOrLater(tr, []);
        assert tries == [tr] + [];
      }
    }
  }

  lemma AppliedFirstOrLater(tr: VmTry, rest: seq<VmTry>)
    ensures SomeApplied([tr] + rest) <==> tr.applied || SomeApplied(rest)
  {
    var all := [tr] + rest;
    if tr.applied { assert all[0].applied; }
    if i :| 0 <= i < |rest| && rest[i].applied { assert all[i + 1].applied; }
    if i :| 0 <= i < |all| && all[i].applied && i > 0 { assert rest[i - 1].applied; }
  }

  lemma TryUncertainty(name: string, desired: Vm, o: Objects, k: nat, sky: Sky)
    ensures
      var t, tr := TryPutVm(name, desired, o, k, sky), VmTryOf(name, desired, o, k, sky);
      t.err.Some? ==>
        && (t.err.value.uncertain <==> Undecided(tr))
        && (t.err.value.fault == Interrupted <==> InterruptedTry(tr))
  {
  }

  // The outcome of the retries is uncertain exactly if the deciding try could
  // not tell. `prior` is the try before, if there was one.
  lemma {:induction false} UncertainIfUndecided(
    name: string, desired: Vm, o: Objects, k: nat, sky: Sky, deadline: Deadline, steps: nat, last: Option<Error>, prior: seq<VmTry>)
    requires steps > 0 || last.Some?
    requires |prior| == (if last.Some? then 1 else 0)
    requires last.Some? ==> IsTransient(last.value) && (last.value.uncertain <==> Undecided(prior[0])) && !InterruptedTry(prior[0])
    ensures
      var t := Retried(PutVm(name, desired), o, k, sky, deadline, steps, last);
      var tries := prior + VmTries(name, desired, o, k, sky, deadline, steps);
      t.err.Some? ==> (t.err.value.uncertain <==> tries != [] && Undecided(Deciding(tries)))
    decreases steps
  {
    if steps == 0 || Over(deadline, k) {
      assert prior + [] == prior;
    } else {
      TryUncertainty(name, desired, o, k, sky);
      var t, tr := TryPutVm(name, desired, o, k, sky), VmTryOf(name, desired, o, k, sky);
      var tries := VmTries(name, desired, o, k, sky, deadline, steps);
      hide TryPutVm, VmTryOf, Undecided, InterruptedTry;
      if t.err.Some? && IsTransient(t.err.value) {
        var rest := VmTries(name, desired, t.objects, t.calls, sky, deadline, steps - 1);
        UncertainIfUndecided(name, desired, t.objects, t.calls, sky, deadline, steps - 1, t.err, [tr]);
        assert tries == [tr] + rest;
        assert prior + tries == prior + ([tr] + rest);
        SameDeciding(prior, tr, rest);
      } else {
        assert prior + tries == prior + [tr];
      }
    }
  }

  // An earlier try does not matter once another follows that was not interrupted.
  lemma SameDeciding(prior: seq<VmTry>, tr: VmTry, rest: seq<VmTry>)
    requires |prior| <= 1 && !InterruptedTry(tr)
    ensures Deciding(prior + ([tr] + rest)) == Deciding([tr] + rest)
  {
    var a, b := prior + ([tr] + rest), [tr] + rest;
    assert a[|a| - 1] == b[|b| - 1];
    if |b| > 1 { assert a[|a| - 2] == b[|b| - 2]; }
  }

  function TriesOf(r: Resources, o: Objects, k: nat, sky: Sky, deadline: Deadline): seq<VmTry> {
    var s := SecretPhase(r, o, k, sky, deadline);
    VmTries(r.vmName, r.vm, s.objects, s.calls, sky, deadline, STEPS)
  }

  // A launch asks to delete its Secret although a VM of this request is there,
  // exactly when it created the Secret itself, failed to create or verify the
  // VM, a VM of this request had been there or one of its creates was applied,
  // and the try that decided the outcome was not undecided.
  lemma DropsSecretOfItsVm(r: Resources, o: Objects, k: nat, sky: Sky, deadline: Deadline)
    ensures
      var l, tries := Launch(r, o, k, sky, deadline), TriesOf(r, o, k, sky, deadline);
      l.dropped && VmHere(l.objects, r) <==>
        && SecretPhase(r, o, k, sky, deadline).created && VmPhase(r, o, k, sky, deadline).err.Some?
        && (VmHere(o, r) || SomeApplied(tries))
        && !(tries != [] && Undecided(Deciding(tries)))
  {
    hide Retried, Terminated, SomeApplied, Undecided, Deciding, VmTries;
    var s, v := SecretPhase(r, o, k, sky, deadline), VmPhase(r, o, k, sky, deadline);
    PutSecretEffect(r.secretName, r.secret, o, k, sky, deadline, STEPS, None);
    PresentIfApplied(r.vmName, r.vm, s.objects, s.calls, sky, deadline, STEPS, None);
    UncertainIfUndecided(r.vmName, r.vm, s.objects, s.calls, sky, deadline, STEPS, None, []);
    assert [] + TriesOf(r, o, k, sky, deadline) == TriesOf(r, o, k, sky, deadline);
    if s.err.None? && v.err.Some? {
      assert Launch(r, o, k, sky, deadline).objects.vms == v.objects.vms;
    }
  }

  // ---- A launch that does ---------------------------------------------------------------

  // The Secret is created. The create of the VM fails transiently although it
  // is applied, and no lookup of it is answered from then on.
  function BlindSky(): Sky {
    (k: nat) =>
      if k == 1 then Storm(Transient, true)
      else if k in {2, 4, 6, 8, 10} then Storm(Transient, false) else Fair
  }

  const NOTHING: Objects := Objects(map[], map[], {}, 1)

  // In an empty namespace the first try is undecided, four more find the VM
  // there but cannot read it, and the launch then deletes the Secret of a VM
  // that runs.
  lemma BlindLaunchDropsSecret(r: Resources)
    ensures
      var l := Launch(r, NOTHING, 0, BlindSky(), None);
      && Undecided(TriesOf(r, NOTHING, 0, BlindSky(), None)[0])
      && l.result.Refused? && l.dropped && VmHere(l.objects, r) && r.secretName !in l.objects.secrets
  {
    var sky := BlindSky();
    var o1 := NOTHING.(secrets := map[r.secretName := r.secret]);
    assert SecretPhase(r, NOTHING, 0, sky, None) == Attempt(o1, 1, None, true, None);
    var o2 := o1.(vms := map[r.vmName := r.vm.(uid := 1)], nextUid := 2);
    var put := PutVm(r.vmName, r.vm);
    var unknown, unseen := Some(Error(Transient, true)), Some(Error(Transient, false));
    assert TryPutVm(r.vmName, r.vm, o1, 1, sky) == Attempt(o2, 3, unknown, false, None);
    BlindTry(r, o2, 3);
    BlindTry(r, o2, 5);
    BlindTry(r, o2, 7);
    BlindTry(r, o2, 9);
    hide TryPutVm;
    assert Retried(put, o2, 11, sky, None, 0, unseen) == Attempt(o2, 11, unseen, false, None);
    assert Retried(put, o2, 9, sky, None, 1, unseen) == Attempt(o2, 11, unseen, false, None);
    assert Retried(put, o2, 7, sky, None, 2, unseen) == Attempt(o2, 11, unseen, false, None);
    assert Retried(put, o2, 5, sky, None, 3, unseen) == Attempt(o2, 11, unseen, false, None);
    assert Retried(put, o2, 3, sky, None, 4, unknown) == Attempt(o2, 11, unseen, false, None);
    assert Retried(put, o1, 1, sky, None, 5, None) == Attempt(o2, 11, unseen, false, None);
  }

  lemma BlindTry(r: Resources, o: Objects, k: nat)
    requires k in {3, 5, 7, 9} && r.vmName in o.vms
    ensures TryPutVm(r.vmName, r.vm, o, k, BlindSky()) == Attempt(o, k + 2, Some(Error(Transient, false)), false, None)
  {
  }
}
