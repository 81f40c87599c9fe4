// What a provider listing says: instances, their order by age, the group of a
// sandbox, and the instance a driver keeps.
module Fleet {
  import opened Records
  import opened Ordering

  // A normalised provider instance. The VMI phase and the IP address are
  // diagnostics that no decision reads.
  datatype Instance = Instance(
    id: string,
    sandboxId: string,
    name: string,
    namespace: string,
    workspace: string,
    state: string,
    createdAt: Time)

  // Go compares strings byte by byte.
  predicate StringLe(a: string, b: string) {
    a == "" || (b != "" && (a[0] < b[0] || (a[0] == b[0] && StringLe(a[1..], b[1..]))))
  }

  lemma {:induction false} StringLeTotal(a: string, b: string)
    ensures StringLe(a, b) || StringLe(b, a)
    decreases |a|
  {
    if a != "" && b != "" { StringLeTotal(a[1..], b[1..]); }
  }

  lemma {:induction false} StringLeAntisymmetric(a: string, b: string)
    requires StringLe(a, b) && StringLe(b, a)
    ensures a == b
    decreases |a|
  {
    if a != "" {
      StringLeAntisymmetric(a[1..], b[1..]);
      assert a == [a[0]] + a[1..] && b == [b[0]] + b[1..];
    }
  }

  lemma {:induction false} StringLeTransitive(a: string, b: string, c: string)
    requires StringLe(a, b) && StringLe(b, c)
    ensures StringLe(a, c)
    decreases |a|
  {
    if a != "" && a[0] == b[0] == c[0] { StringLeTransitive(a[1..], b[1..], c[1..]); }
  }

  // Oldest first, instance ids breaking ties.
  predicate OlderEq(a: Instance, b: Instance) {
    a.createdAt < b.createdAt || (a.createdAt == b.createdAt && StringLe(a.id, b.id))
  }

  lemma OlderTotal(a: Instance, b: Instance)
    ensures OlderEq(a, b) || OlderEq(b, a)
  {
    StringLeTotal(a.id, b.id);
  }

  lemma OlderTransitive(a: Instance, b: Instance, c: Instance)
    requires OlderEq(a, b) && OlderEq(b, c)
    ensures OlderEq(a, c)
  {
    if a.createdAt == b.createdAt == c.createdAt { StringLeTransitive(a.id, b.id, c.id); }
  }

  ghost predicate ByAge(s: seq<Instance>) {
    forall i, j :: 0 <= i < j < |s| ==> OlderEq(s[i], s[j])
  }

  // What sort.Slice leaves: some permutation in order, ties in any order.
  ghost predicate SortedFrom(s: seq<Instance>, group: seq<Instance>) {
    ByAge(s) && multiset(s) == multiset(group)
  }

  lemma AgesCompare()
    ensures Compares(OlderEq) && forall s: seq<Instance> :: Ordered(s, OlderEq) <==> ByAge(s)
  {
    forall a, b ensures OlderEq(a, b) || OlderEq(b, a) { OlderTotal(a, b); }
    forall a, b, c | OlderEq(a, b) && OlderEq(b, c) ensures OlderEq(a, c) { OlderTransitive(a, b, c); }
    hide OlderEq;
  }

  ghost predicate DistinctIds(s: seq<Instance>) {
    forall a, b :: a in s && b in s && a.id == b.id ==> a == b
  }

  lemma SameMembers(s: seq<Instance>, t: seq<Instance>)
    requires multiset(s) == multiset(t)
    ensures forall x :: x in s <==> x in t
  {
    forall x ensures x in s <==> x in t {
      assert x in s <==> x in multiset(s);
      assert x in t <==> x in multiset(t);
    }
  }

  lemma HeadIsOldest(s: seq<Instance>, x: Instance)
    requires ByAge(s) && x in s
    ensures OlderEq(s[0], x)
  {
    var i :| 0 <= i < |s| && s[i] == x;
    if i == 0 { OlderTotal(x, x); }
  }

  lemma TailMultiset(s: seq<Instance>)
    requires s != []
    ensures multiset(s[1..]) == multiset(s) - multiset{s[0]}
  {
    assert s == [s[0]] + s[1..];
  }

  lemma SameHead(s: seq<Instance>, t: seq<Instance>)
    requires ByAge(s) && ByAge(t) && s != [] && t != []
    requires multiset(s) == multiset(t) && DistinctIds(s)
    ensures s[0] == t[0]
  {
    SameMembers(s, t);
    HeadIsOldest(s, t[0]);
    HeadIsOldest(t, s[0]);
    StringLeAntisymmetric(s[0].id, t[0].id);
  }

  lemma {:induction false} SortUnique(s: seq<Instance>, t: seq<Instance>)
    requires ByAge(s) && ByAge(t) && multiset(s) == multiset(t) && DistinctIds(s)
    ensures s == t
    decreases |s|
  {
    assert |s| == |multiset(s)| == |multiset(t)| == |t|;
    if s != [] {
      SameHead(s, t);
      TailMultiset(s);
      TailMultiset(t);
      SortUnique(s[1..], t[1..]);
      assert s == [s[0]] + s[1..] && t == [t[0]] + t[1..];
    }
  }

  // ---- Grouping by sandbox ----------------------------------------------

  function Group(listing: seq<Instance>, sandboxId: string): seq<Instance> {
    if listing == [] then []
    else
      var last := listing[|listing| - 1];
      Group(listing[..|listing| - 1], sandboxId) + (if last.sandboxId == sandboxId then [last] else [])
  }

  lemma {:induction false} GroupMembers(listing: seq<Instance>, sandboxId: string)
    ensures forall x :: x in Group(listing, sandboxId) <==> x in listing && x.sandboxId == sandboxId
    decreases |listing|
  {
    if listing != [] {
      GroupMembers(listing[..|listing| - 1], sandboxId);
      assert listing == listing[..|listing| - 1] + [listing[|listing| - 1]];
    }
  }

  lemma {:induction false} GroupCount(listing: seq<Instance>, sandboxId: string, x: Instance)
    ensures multiset(Group(listing, sandboxId))[x] == if x.sandboxId == sandboxId then multiset(listing)[x] else 0
    decreases |listing|
  {
    if listing != [] {
      var init := listing[..|listing| - 1];
      assert listing == init + [listing[|listing| - 1]];
      GroupCount(init, sandboxId, x);
    }
  }

  lemma GroupPermutes(a: seq<Instance>, b: seq<Instance>, sandboxId: string)
    requires multiset(a) == multiset(b)
    ensures multiset(Group(a, sandboxId)) == multiset(Group(b, sandboxId))
  {
    var ga, gb := multiset(Group(a, sandboxId)), multiset(Group(b, sandboxId));
    forall x ensures ga[x] == gb[x] {
      GroupCount(a, sandboxId, x);
      GroupCount(b, sandboxId, x);
    }
  }

  // ---- The keeper of a group, KubeVirt's rule -----------------------------

  predicate IsTerminal(state: string) { state == "Deleted" }

  predicate IsFinished(state: string) { state == "Succeeded" || state == "Failed" }

  function Live(s: seq<Instance>): seq<Instance> {
    if s == [] then []
    else
      var last := s[|s| - 1];
      Live(s[..|s| - 1]) + (if IsTerminal(last.state) then [] else [last])
  }

  lemma {:induction false} LiveMembers(s: seq<Instance>)
    ensures forall x :: x in Live(s) <==> x in s && !IsTerminal(x.state)
    decreases |s|
  {
    if s != [] {
      LiveMembers(s[..|s| - 1]);
      assert s == s[..|s| - 1] + [s[|s| - 1]];
    }
  }

  lemma {:induction false} LiveKeepsOrder(s: seq<Instance>)
    requires ByAge(s)
    ensures ByAge(Live(s))
    decreases |s|
  {
    if s != [] {
      var init, last := s[..|s| - 1], s[|s| - 1];
      LiveKeepsOrder(init);
      LiveMembers(init);
      forall x | x in Live(init) ensures OlderEq(x, last) {
        var i :| 0 <= i < |init| && init[i] == x;
      }
    }
  }

  // The first index from `from` on whose instance is not finished.
  function FirstUnfinished(live: seq<Instance>, from: nat): (k: nat)
    requires from <= |live|
    ensures from <= k <= |live|
    ensures k < |live| ==> !IsFinished(live[k].state)
    ensures forall i :: from <= i < k ==> IsFinished(live[i].state)
    decreases |live| - from
  {
    if from == |live| || !IsFinished(live[from].state) then from else FirstUnfinished(live, from + 1)
  }

  function KeeperIndex(live: seq<Instance>): (k: nat)
    requires live != []
    ensures k < |live|
  {
    var k := FirstUnfinished(live, 0);
    if k < |live| then k else 0
  }

  // The keeper without sorting: the oldest live instance that is not finished,
  // or the oldest live one when all are.
  ghost predicate IsKeeper(x: Instance, group: seq<Instance>) {
    && x in group && !IsTerminal(x.state)
    && (IsFinished(x.state) ==> forall y :: y in group && !IsTerminal(y.state) ==> IsFinished(y.state))
    && (forall y :: y in group && !IsTerminal(y.state) && (IsFinished(x.state) || !IsFinished(y.state)) ==> OlderEq(x, y))
  }

  lemma KeeperCharacterised(sorted: seq<Instance>, group: seq<Instance>)
    requires SortedFrom(sorted, group) && Live(sorted) != []
    ensures IsKeeper(Live(sorted)[KeeperIndex(Live(sorted))], group)
  {
    SameMembers(sorted, group);
    LiveKeepsOrder(sorted);
    LiveMembers(sorted);
    var live := Live(sorted);
    var k := KeeperIndex(live);
    var x := live[k];
    assert x in live;
    forall y | y in group && !IsTerminal(y.state)
      ensures y in live
      ensures IsFinished(x.state) ==> IsFinished(y.state)
      ensures IsFinished(x.state) || !IsFinished(y.state) ==> OlderEq(x, y)
    {
      assert y in live;
      var i :| 0 <= i < |live| && live[i] == y;
      if i == k { OlderTotal(x, x); }
    }
  }

  lemma KeeperUnique(x: Instance, y: Instance, group: seq<Instance>)
    requires IsKeeper(x, group) && IsKeeper(y, group) && DistinctIds(group)
    ensures x == y
  {
    StringLeAntisymmetric(x.id, y.id);
  }

  // ---- The keeper in words -------------------------------------------------------

  // Bytes decide at the first difference; otherwise the shorter text is first.
  ghost predicate Precedes(a: string, b: string) {
    a <= b || exists i :: 0 <= i < |a| && i < |b| && a[..i] == b[..i] && a[i] < b[i]
  }

  lemma {:induction false} StringLePrecedes(a: string, b: string)
    ensures StringLe(a, b) <==> Precedes(a, b)
    decreases |a|
  {
    if a != "" && b != "" {
      if a[0] == b[0] {
        StringLePrecedes(a[1..], b[1..]);
        TailPrecedes(a, b);
      } else if a[0] < b[0] {
        assert a[..0] == b[..0];
      }
    }
  }

  lemma TailPrecedes(a: string, b: string)
    requires a != "" && b != "" && a[0] == b[0]
    ensures Precedes(a, b) <==> Precedes(a[1..], b[1..])
  {
    var s, t := a[1..], b[1..];
    assert a == [a[0]] + s && b == [b[0]] + t;
    if i :| 0 <= i < |a| && i < |b| && a[..i] == b[..i] && a[i] < b[i] {
      assert i > 0 && s[..i - 1] == a[..i][1..] && t[..i - 1] == b[..i][1..];
      assert s[i - 1] < t[i - 1];
    }
    if i :| 0 <= i < |s| && i < |t| && s[..i] == t[..i] && s[i] < t[i] {
      assert a[..i + 1] == [a[0]] + s[..i] && b[..i + 1] == [b[0]] + t[..i];
      assert a[i + 1] < b[i + 1];
    }
  }

  ghost predicate EarlierThan(x: Instance, y: Instance) {
    x.createdAt < y.createdAt || (x.createdAt == y.createdAt && Precedes(x.id, y.id))
  }

  // Of the sandbox's instances that are not deleted: one that has not succeeded
  // or failed comes before one that has, then the older, then the smaller name.
  ghost predicate Chosen(x: Instance, listing: seq<Instance>, id: string) {
    && x in listing && x.sandboxId == id && x.state != "Deleted"
    && forall y :: y in listing && y.sandboxId == id && y.state != "Deleted" ==>
         var doneX, doneY := x.state in {"Succeeded", "Failed"}, y.state in {"Succeeded", "Failed"};
         (!doneX && doneY) || (doneX == doneY && EarlierThan(x, y))
  }

  lemma KeeperIsChosen(x: Instance, listing: seq<Instance>, id: string)
    ensures IsKeeper(x, Group(listing, id)) <==> Chosen(x, listing, id)
  {
    GroupMembers(listing, id);
    forall y ensures OlderEq(x, y) <==> EarlierThan(x, y) { StringLePrecedes(x.id, y.id); }
    hide StringLe, Group, OlderEq, Precedes, EarlierThan;
  }
}
