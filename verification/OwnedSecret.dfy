// When making the VM own the Secret works. A nil from it is meant to say that
// the VM owns the Secret. An interrupted request can make it say so falsely;
// here is exactly when.
module OwnedSecret {
  import opened Records
  import opened ObjectStore
  import opened LaunchSpec

  ghost predicate OwnedBy(o: Objects, name: string, owner: Owner) {
    name in o.secrets && o.secrets[name].owner == Some(owner)
  }

  // One read and write: what it failed with, and whether it changed the Secret.
  datatype OwnRequest = OwnRequest(fault: Option<Fault>, applied: bool)

  function OwnRequestOf(name: string, owner: Owner, o: Objects, k: nat, sky: Sky): OwnRequest {
    var t := OwnStep(name, owner, o, k, sky);
    OwnRequest(if t.err.None? then None else Some(t.err.value.fault), t.objects != o)
  }

  // What one RetryOnConflict asked for.
  function OwnRequests(name: string, owner: Owner, o: Objects, k: nat, sky: Sky, steps: nat): seq<OwnRequest>
    decreases steps
  {
    if steps == 0 then []
    else
      var t, q := OwnStep(name, owner, o, k, sky), OwnRequestOf(name, owner, o, k, sky);
      [q] + if q.fault == Some(Conflict) then OwnRequests(name, owner, t.objects, t.calls, sky, steps - 1) else []
  }

  // What each try of the retries around it asked for.
  function OwnTries(name: string, owner: Owner, o: Objects, k: nat, sky: Sky, deadline: Deadline, steps: nat): seq<seq<OwnRequest>>
    decreases steps
  {
    if steps == 0 || Over(deadline, k) then []
    else
      var t := TryOwn(name, owner, o, k, sky, CONFLICT_STEPS, None);
      [OwnRequests(name, owner, o, k, sky, CONFLICT_STEPS)]
      + if t.err.Some? && IsTransient(t.err.value) then OwnTries(name, owner, t.objects, t.calls, sky, deadline, steps - 1) else []
  }

  predicate Succeeded(requests: seq<OwnRequest>) {
    requests != [] && requests[|requests| - 1].fault.None?
  }

  // Its only request was interrupted: there is no conflict to report instead.
  predicate Swallowed(requests: seq<OwnRequest>) {
    |requests| == 1 && requests[0].fault == Some(Interrupted)
  }

  ghost predicate Applied(requests: seq<OwnRequest>) {
    exists i :: 0 <= i < |requests| && requests[i].applied
  }

  ghost predicate SomeApplied(tries: seq<seq<OwnRequest>>) {
    exists i :: 0 <= i < |tries| && Applied(tries[i])
  }

  lemma StepOwns(name: string, owner: Owner, o: Objects, k: nat, sky: Sky)
    ensures
      var t, q := OwnStep(name, owner, o, k, sky), OwnRequestOf(name, owner, o, k, sky);
      && (OwnedBy(t.objects, name, owner) <==> OwnedBy(o, name, owner) || q.applied)
      && (q.fault.None? ==> OwnedBy(t.objects, name, owner))
  {
    if name in o.secrets && o.secrets[name].owner == Some(owner) {
      var s := o.secrets[name];
      assert s.(owner := Some(owner)) == s && o.secrets[name := s] == o.secrets;
    }
  }

  lemma AppliedFirstOrLater(q: OwnRequest, rest: seq<OwnRequest>)
    ensures Applied([q] + rest) <==> q.applied || Applied(rest)
  {
    var all := [q] + rest;
    if q.applied { assert all[0].applied; }
    if i :| 0 <= i < |rest| && rest[i].applied { assert all[i + 1].applied; }
    if i :| 0 <= i < |all| && all[i].applied && i > 0 { assert rest[i - 1].applied; }
  }

  lemma SomeAppliedFirstOrLater(first: seq<OwnRequest>, rest: seq<seq<OwnRequest>>)
    ensures SomeApplied([first] + rest) <==> Applied(first) || SomeApplied(rest)
  {
    var all := [first] + rest;
    if Applied(first) { assert Applied(all[0]); }
    if i :| 0 <= i < |rest| && Applied(rest[i]) { assert Applied(all[i + 1]); }
    if i :| 0 <= i < |all| && Applied(all[i]) && i > 0 { assert Applied(rest[i - 1]); }
  }

  // One RetryOnConflict: whether it leaves the Secret owned, and whether it
  // reports nil.
  lemma {:induction false} RequestsOwn(name: string, owner: Owner, o: Objects, k: nat, sky: Sky, steps: nat, last: Option<Error>)
    requires steps > 0 || last.Some?
    ensures
      var t, requests := TryOwn(name, owner, o, k, sky, steps, last), OwnRequests(name, owner, o, k, sky, steps);
      && (OwnedBy(t.objects, name, owner) <==> OwnedBy(o, name, owner) || Applied(requests))
      && (Succeeded(requests) ==> OwnedBy(t.objects, name, owner))
      && (t.err.None? <==> Succeeded(requests) || (last.None? && Swallowed(requests)))
    decreases steps
  {
    if steps > 0 {
      StepOwns(name, owner, o, k, sky);
      var t, q := OwnStep(name, owner, o, k, sky), OwnRequestOf(name, owner, o, k, sky);
      var requests := OwnRequests(name, owner, o, k, sky, steps);
      if q.fault == Some(Conflict) {
        RequestsOwn(name, owner, t.objects, t.calls, sky, steps - 1, t.err);
        var rest := OwnRequests(name, owner, t.objects, t.calls, sky, steps - 1);
        AppliedFirstOrLater(q, rest);
        assert requests == [q] + rest;
      } else {
        AppliedFirstOrLater(q, []);
        assert requests == [q] + [];
      }
      hide OwnStep;
    }
  }

  ghost predicate NilFrom(tries: seq<seq<OwnRequest>>) {
    tries != [] && (Succeeded(tries[|tries| - 1]) || Swallowed(tries[|tries| - 1]))
  }

  lemma {:induction false} TriesOwn(
    name: string, owner: Owner, o: Objects, k: nat, sky: Sky, deadline: Deadline, steps: nat, last: Option<Error>)
    requires steps > 0 || last.Some?
    ensures
      var t, tries := Retried(Own(name, owner), o, k, sky, deadline, steps, last), OwnTries(name, owner, o, k, sky, deadline, steps);
      && (OwnedBy(t.objects, name, owner) <==> OwnedBy(o, name, owner) || SomeApplied(tries))
      && (t.err.None? <==> NilFrom(tries))
      && (NilFrom(tries) && Succeeded(tries[|tries| - 1]) ==> OwnedBy(t.objects, name, owner))
    decreases steps
  {
    hide TryOwn, TryPutSecret, TryPutVm, TryRemove, OwnRequests, Succeeded, Swallowed, Applied, OwnedBy;
    if steps == 0 || Over(deadline, k) {
      assert !SomeApplied([]);
    } else {
      RequestsOwn(name, owner, o, k, sky, CONFLICT_STEPS, None);
      var t, first := TryOwn(name, owner, o, k, sky, CONFLICT_STEPS, None), OwnRequests(name, owner, o, k, sky, CONFLICT_STEPS);
      var tries := OwnTries(name, owner, o, k, sky, deadline, steps);
      if t.err.Some? && IsTransient(t.err.value) {
        TriesOwn(name, owner, t.objects, t.calls, sky, deadline, steps - 1, t.err);
        var rest := OwnTries(name, owner, t.objects, t.calls, sky, deadline, steps - 1);
        SomeAppliedFirstOrLater(first, rest);
        assert tries == [first] + rest;
      } else {
        SomeAppliedFirstOrLater(first, []);
        assert tries == [first] + [];
      }
    }
  }

  // Nil without ownership: the last try's only request was interrupted, nothing
  // that was asked before was applied, and the Secret was not owned already.
  ghost predicate LeftUnowned(name: string, owner: Owner, o: Objects, tries: seq<seq<OwnRequest>>) {
    !OwnedBy(o, name, owner) && !SomeApplied(tries) && tries != [] && Swallowed(tries[|tries| - 1])
  }
}
