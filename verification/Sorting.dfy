// The in-place work of a reconciliation on the group of one sandbox.
module Sorting {
  import opened Records
  import opened Fleet
  import opened Ordering

  method SortByAge(a: array<Instance>)
    modifies a
    ensures SortedFrom(a[..], old(a[..]))
  {
    AgesCompare();
    SortSlice(a, OlderEq);
  }

  ghost predicate LiveOf(kept: seq<Instance>, s: seq<Instance>) {
    kept == Live(s)
  }

  lemma LiveNext(kept: seq<Instance>, s: seq<Instance>, x: Instance)
    requires LiveOf(kept, s)
    ensures LiveOf(kept + (if IsTerminal(x.state) then [] else [x]), s + [x])
  {
    assert (s + [x])[..|s|] == s;
  }

  // live := matches[:0] and the appends: the live instances move to the front
  // of the very slice being read.
  method CompactLive(a: array<Instance>) returns (n: nat)
    modifies a
    ensures n <= a.Length && a[..n] == Live(old(a[..]))
  {
    n := 0;
    ghost var was, kept: seq<Instance> := a[..], [];
    assert was[..0] == [] && LiveOf([], []);
    for i := 0 to a.Length
      invariant n <= i && |kept| == n && LiveOf(kept, was[..i])
      invariant forall j :: 0 <= j < n ==> a[j] == kept[j]
      invariant forall j :: i <= j < a.Length ==> a[j] == was[j]
    {
      hide LiveOf;
      var candidate := a[i];
      LiveNext(kept, was[..i], candidate);
      assert was[..i + 1] == was[..i] + [candidate];
      if !IsTerminal(candidate.state) {
        a[n] := candidate;
        n := n + 1;
        kept := kept + [candidate];
      } else {
        assert kept + [] == kept;
      }
    }
    assert was[..a.Length] == was && a[..n] == kept;
  }

  method ChooseKeeper(a: array<Instance>, n: nat) returns (keeper: nat)
    requires 0 < n <= a.Length
    ensures keeper == KeeperIndex(a[..n])
  {
    keeper := 0;
    for i := 0 to n
      invariant forall j :: 0 <= j < i ==> IsFinished(a[j].state)
      invariant keeper == 0
      invariant FirstUnfinished(a[..n], 0) >= i
    {
      if !IsFinished(a[i].state) {
        return i;
      }
    }
  }

  ghost predicate Grouped(m: map<string, seq<Instance>>, listing: seq<Instance>) {
    && (forall id :: id in m <==> id != "" && Group(listing, id) != [])
    && (forall id :: id in m ==> m[id] == Group(listing, id))
  }

  lemma GroupedNext(m: map<string, seq<Instance>>, listing: seq<Instance>, x: Instance)
    requires Grouped(m, listing)
    ensures Grouped(if x.sandboxId == "" then m
                    else m[x.sandboxId := (if x.sandboxId in m then m[x.sandboxId] else []) + [x]], listing + [x])
  {
    hide Group;
    forall id ensures Group(listing + [x], id) == Group(listing, id) + (if x.sandboxId == id then [x] else []) {
      GroupSnoc(listing, x, id);
    }
  }

  lemma GroupSnoc(listing: seq<Instance>, x: Instance, id: string)
    ensures Group(listing + [x], id) == Group(listing, id) + (if x.sandboxId == id then [x] else [])
  {
    assert (listing + [x])[..|listing|] == listing;
  }

  // append(bySandbox[id], instance) over the listing; nameless sandboxes are skipped.
  method GroupBySandbox(listing: seq<Instance>) returns (m: map<string, seq<Instance>>)
    ensures forall id :: id in m <==> id != "" && Group(listing, id) != []
    ensures forall id :: id in m ==> m[id] == Group(listing, id) && forall x :: x in m[id] ==> x.sandboxId == id
    ensures forall x :: x in listing && x.sandboxId != "" ==> x.sandboxId in m
  {
    m := map[];
    assert listing[..0] == [];
    for i := 0 to |listing|
      invariant Grouped(m, listing[..i])
    {
      hide Grouped;
      var instance := listing[i];
      GroupedNext(m, listing[..i], instance);
      assert listing[..i + 1] == listing[..i] + [instance];
      if instance.sandboxId != "" {
        var before := if instance.sandboxId in m then m[instance.sandboxId] else [];
        m := m[instance.sandboxId := before + [instance]];
      }
    }
    assert listing[..|listing|] == listing;
    forall id { GroupMembers(listing, id); }
    forall x | x in listing && x.sandboxId != "" ensures x.sandboxId in m {
      assert x in Group(listing, x.sandboxId);
    }
  }
}
