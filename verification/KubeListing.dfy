// KubeAPIProvider.List: all pages or nothing, each object normalised.
module KubeListing {
  import opened Records
  import opened Fleet
  import opened Transitions
  import opened ObjectStore
  import opened LaunchSpec

  // What the adapter reads of a VirtualMachine object.
  datatype RawVm = RawVm(
    name: string, annotations: map<string, string>, labels: map<string, string>,
    printableStatus: string, deleting: bool, halted: bool, created: Time)

  const ANNOT_SANDBOX_ID := "openshell.io/sandbox-id-value"
  const ANNOT_SANDBOX_NAME := "openshell.io/sandbox-name-value"
  const ANNOT_NAMESPACE := "openshell.io/sandbox-namespace"
  const ANNOT_WORKSPACE := "openshell.io/workspace-value"
  const ANNOT_CREATED_AT := "openshell.io/created-at"
  const LABEL_SANDBOX_ID := "openshell.io/sandbox-id"

  // A missing key of a Go map reads as the empty string.
  function Value(m: map<string, string>, key: string): string {
    if key in m then m[key] else ""
  }

  function NormalizedSandboxId(raw: RawVm): string {
    if Value(raw.annotations, ANNOT_SANDBOX_ID) != "" then raw.annotations[ANNOT_SANDBOX_ID]
    else if Value(raw.labels, LABEL_SANDBOX_ID) != "" then "hash:" + raw.labels[LABEL_SANDBOX_ID]
    else "orphan:" + raw.name
  }

  // The VMI's phase, if there is a VMI, only stands in for a missing status.
  function NormalizedState(raw: RawVm, phase: Option<string>): string {
    var state := if raw.deleting then "Terminating" else raw.printableStatus;
    var joined := if phase.Some? && state == "" then phase.value else state;
    if joined != "" then joined else if raw.halted then "Stopped" else "Starting"
  }

  function Normalize(raw: RawVm, phase: Option<string>, parseTime: string -> Option<Time>): Instance {
    var name := Value(raw.annotations, ANNOT_SANDBOX_NAME);
    var created := parseTime(Value(raw.annotations, ANNOT_CREATED_AT));
    Instance(
      raw.name, NormalizedSandboxId(raw), if name == "" then raw.name else name,
      Value(raw.annotations, ANNOT_NAMESPACE), Value(raw.annotations, ANNOT_WORKSPACE),
      NormalizedState(raw, phase), if created.Some? then created.value else raw.created)
  }

  // No managed VM is skipped for want of a sandbox id or a state, whatever its
  // labels and annotations were made into.
  lemma NormalizedIsIdentified(raw: RawVm, phase: Option<string>, parseTime: string -> Option<Time>)
    ensures
      var x := Normalize(raw, phase, parseTime);
      && x.id == raw.name && x.sandboxId != "" && x.state != ""
      && (raw.deleting ==> x.state == "Terminating" && !IsTerminal(x.state))
      && (raw.name != "" ==> x.name != "")
  {
    var x := Normalize(raw, phase, parseTime);
    assert |"orphan:" + raw.name| >= 7;
    assert |"hash:" + Value(raw.labels, LABEL_SANDBOX_ID)| >= 5;
  }

  // VMs that lost their annotations stay apart: the same id comes out only for
  // the same label hash, or for one and the same VM.
  lemma StrippedStayApart(a: RawVm, b: RawVm)
    requires Value(a.annotations, ANNOT_SANDBOX_ID) == Value(b.annotations, ANNOT_SANDBOX_ID) == ""
    ensures NormalizedSandboxId(a) == NormalizedSandboxId(b) <==>
              (Value(a.labels, LABEL_SANDBOX_ID) == Value(b.labels, LABEL_SANDBOX_ID)
               && (Value(a.labels, LABEL_SANDBOX_ID) == "" ==> a.name == b.name))
  {
    var la, lb := Value(a.labels, LABEL_SANDBOX_ID), Value(b.labels, LABEL_SANDBOX_ID);
    assert ("hash:" + la)[5..] == la && ("hash:" + lb)[5..] == lb;
    assert ("orphan:" + a.name)[7..] == a.name && ("orphan:" + b.name)[7..] == b.name;
    assert ("hash:" + la)[0] == 'h' && ("orphan:" + b.name)[0] == 'o';
    assert ("hash:" + lb)[0] == 'h' && ("orphan:" + a.name)[0] == 'o';
  }

  // ---- Paging ----------------------------------------------------------------

  function Concat<T>(pages: seq<seq<T>>): seq<T> {
    if pages == [] then [] else pages[0] + Concat(pages[1..])
  }

  lemma {:induction false} ConcatSnoc<T>(pages: seq<seq<T>>, page: seq<T>)
    ensures Concat(pages + [page]) == Concat(pages) + page
    decreases |pages|
  {
    if pages == [] {
      assert [page][1..] == [];
      assert Concat([page]) == page + Concat([]);
    } else {
      assert (pages + [page])[1..] == pages[1..] + [page];
      ConcatSnoc(pages[1..], page);
    }
  }

  // The objects a list request selects, in the server's pages. A continue token
  // is the number of the next page; an empty one is None.
  class PageServer<T> {
    const pages: seq<seq<T>>

    constructor (pages: seq<seq<T>>)
      requires pages != []
      ensures this.pages == pages
    {
      this.pages := pages;
    }

    method Page(token: nat) returns (page: seq<T>, next: Option<nat>, err: Option<Error>)
      requires token < |pages|
      ensures err.None? ==> page == pages[token] && next == if token + 1 < |pages| then Some(token + 1) else None
    {
      var broken: bool := *;
      var fault: Fault := *;
      if broken { return [], None, Some(Error(fault, false)); }
      return pages[token], if token + 1 < |pages| then Some(token + 1) else None, None;
    }
  }

  method PageWithRetry<T>(server: PageServer<T>, token: nat) returns (page: seq<T>, next: Option<nat>, err: Option<Error>)
    requires token < |server.pages|
    ensures err.None? ==>
              page == server.pages[token] && next == if token + 1 < |server.pages| then Some(token + 1) else None
  {
    page, next, err := [], None, Some(Error(Interrupted, false));
    for step := 0 to STEPS
      invariant err.Some?
    {
      page, next, err := server.Page(token);
      if err.None? || !IsTransient(err.value) { return; }
    }
  }

  // Every page, or no listing at all: a reconciliation never sees a listing
  // with a later page missing.
  method ListAll<T>(server: PageServer<T>) returns (items: Option<seq<T>>)
    requires server.pages != []
    ensures items.Some? ==> items.value == Concat(server.pages)
  {
    var got: seq<T> := [];
    var token := 0;
    while true
      invariant token < |server.pages| && got == Concat(server.pages[..token])
      decreases |server.pages| - token
    {
      var page, next, err := PageWithRetry(server, token);
      if err.Some? { return None; }
      assert server.pages[..token + 1] == server.pages[..token] + [server.pages[token]];
      ConcatSnoc(server.pages[..token], page);
      got := got + page;
      if next.None? {
        assert server.pages[..token + 1] == server.pages;
        return Some(got);
      }
      token := next.value;
    }
  }

  // ---- The listing -------------------------------------------------------------

  datatype RawVmi = RawVmi(name: string, phase: string)

  // The phase of the last VMI of each name.
  function Phases(vmis: seq<RawVmi>): map<string, string> {
    if vmis == [] then map[] else Phases(vmis[..|vmis| - 1])[vmis[|vmis| - 1].name := vmis[|vmis| - 1].phase]
  }

  // The VMs in order, each joined with its VMI, that pass the name filter.
  function Normalized(
    raws: seq<RawVm>, phases: map<string, string>, parseTime: string -> Option<Time>, nameFilter: string): seq<Instance>
  {
    if raws == [] then []
    else
      var raw := raws[|raws| - 1];
      var x := Normalize(raw, Lookup(phases, raw.name), parseTime);
      Normalized(raws[..|raws| - 1], phases, parseTime, nameFilter)
      + if nameFilter == "" || x.name == nameFilter then [x] else []
  }

  // Every VM that passes the filter is in the listing as often as it was
  // listed, and in the group a reconciliation considers for its sandbox: none is
  // skipped for want of a sandbox id.
  lemma {:induction false} NothingIsSkipped(
    raws: seq<RawVm>, phases: map<string, string>, parseTime: string -> Option<Time>, nameFilter: string)
    ensures
      var listing := Normalized(raws, phases, parseTime, nameFilter);
      && (forall raw :: raw in raws ==>
            var x := Normalize(raw, Lookup(phases, raw.name), parseTime);
            nameFilter == "" || x.name == nameFilter ==> x in listing)
      && (forall x :: x in listing ==> x.sandboxId != "" && x.state != "" && (nameFilter == "" || x.name == nameFilter))
      && (nameFilter == "" ==>
            && |listing| == |raws|
            && forall i :: 0 <= i < |raws| ==> listing[i] == Normalize(raws[i], Lookup(phases, raws[i].name), parseTime))
    decreases |raws|
  {
    if raws != [] {
      var init, raw := raws[..|raws| - 1], raws[|raws| - 1];
      assert raws == init + [raw];
      NothingIsSkipped(init, phases, parseTime, nameFilter);
      NormalizedIsIdentified(raw, Lookup(phases, raw.name), parseTime);
      hide Normalize;
    }
  }

  lemma ListedIsMatched(
    raws: seq<RawVm>, phases: map<string, string>, parseTime: string -> Option<Time>, nameFilter: string, x: Instance)
    requires x in Normalized(raws, phases, parseTime, nameFilter)
    ensures x in Matches(Normalized(raws, phases, parseTime, nameFilter), x.sandboxId)
  {
    NothingIsSkipped(raws, phases, parseTime, nameFilter);
    MatchesMembers(Normalized(raws, phases, parseTime, nameFilter), x.sandboxId);
  }

  // Both lists complete, or no listing.
  method List(vms: PageServer<RawVm>, vmis: PageServer<RawVmi>, parseTime: string -> Option<Time>, nameFilter: string)
    returns (instances: Option<seq<Instance>>)
    requires vms.pages != [] && vmis.pages != []
    ensures instances.Some? ==>
              instances.value == Normalized(Concat(vms.pages), Phases(Concat(vmis.pages)), parseTime, nameFilter)
  {
    hide Normalize;
    var vmObjects := ListAll(vms);
    if vmObjects.None? { return None; }
    var vmiObjects := ListAll(vmis);
    if vmiObjects.None? { return None; }
    var raws, joined := vmObjects.value, vmiObjects.value;
    var phases: map<string, string> := map[];
    for i := 0 to |joined|
      invariant phases == Phases(joined[..i])
    {
      assert joined[..i + 1][..i] == joined[..i];
      phases := phases[joined[i].name := joined[i].phase];
    }
    assert joined[..|joined|] == joined;
    var out: seq<Instance> := [];
    for i := 0 to |raws|
      invariant out == Normalized(raws[..i], phases, parseTime, nameFilter)
    {
      assert raws[..i + 1][..i] == raws[..i];
      var instance := Normalize(raws[i], Lookup(phases, raws[i].name), parseTime);
      if nameFilter == "" || instance.name == nameFilter { out := out + [instance]; }
    }
    assert raws[..|raws|] == raws;
    return Some(out);
  }

  // ---- In words -----------------------------------------------------------------

  // What the adapter makes of a VM. The state is that the VM is going, or what
  // the API shows, or its VMI's phase, or whether it is meant to run; the age
  // is the annotated one, if it can be read.
  lemma NormalizedInWords(raw: RawVm, phase: Option<string>, parseTime: string -> Option<Time>)
    ensures
      var x := Normalize(raw, phase, parseTime);
      && x.id == raw.name
      && x.namespace == Value(raw.annotations, "openshell.io/sandbox-namespace")
      && x.workspace == Value(raw.annotations, "openshell.io/workspace-value")
      && (Value(raw.annotations, "openshell.io/sandbox-name-value") != "" ==>
            x.name == Value(raw.annotations, "openshell.io/sandbox-name-value"))
      && (Value(raw.annotations, "openshell.io/sandbox-name-value") == "" ==> x.name == raw.name)
      && (Value(raw.annotations, "openshell.io/sandbox-id-value") != "" ==>
            x.sandboxId == Value(raw.annotations, "openshell.io/sandbox-id-value"))
      && (raw.deleting ==> x.state == "Terminating")
      && (!raw.deleting && raw.printableStatus != "" ==> x.state == raw.printableStatus)
      && (!raw.deleting && raw.printableStatus == "" && phase.Some? && phase.value != "" ==> x.state == phase.value)
      && (!raw.deleting && raw.printableStatus == "" && (phase.None? || phase.value == "") ==>
            x.state == if raw.halted then "Stopped" else "Starting")
      && x.createdAt == (match parseTime(Value(raw.annotations, "openshell.io/created-at"))
                         case Some(t) => t
                         case None => raw.created)
  {
  }

  // A VM without the id annotation goes by its label hash, or by its own name.
  lemma StrippedInWords(raw: RawVm)
    requires Value(raw.annotations, "openshell.io/sandbox-id-value") == ""
    ensures NormalizedSandboxId(raw) ==
            if Value(raw.labels, "openshell.io/sandbox-id") != "" then "hash:" + Value(raw.labels, "openshell.io/sandbox-id")
            else "orphan:" + raw.name
  {
  }

  // A VM is joined with the last VMI of its name, if there is one.
  lemma {:induction false} LastPhase(vmis: seq<RawVmi>, name: string, phase: string)
    ensures Lookup(Phases(vmis), name) == Some(phase) <==>
              exists i :: 0 <= i < |vmis| && vmis[i] == RawVmi(name, phase) && forall j :: i < j < |vmis| ==> vmis[j].name != name
    decreases |vmis|
  {
    if vmis != [] {
      var init, last := vmis[..|vmis| - 1], vmis[|vmis| - 1];
      LastPhase(init, name, phase);
      assert forall i :: 0 <= i < |init| ==> init[i] == vmis[i];
      if last.name == name {
        assert vmis[|vmis| - 1] == last;
      } else {
        if i :| 0 <= i < |init| && init[i] == RawVmi(name, phase) && forall j :: i < j < |init| ==> init[j].name != name {
          assert vmis[i] == RawVmi(name, phase);
        }
        if i :| 0 <= i < |vmis| && vmis[i] == RawVmi(name, phase) && forall j :: i < j < |vmis| ==> vmis[j].name != name {
          assert i < |init| && init[i] == RawVmi(name, phase);
        }
      }
    }
  }
}
