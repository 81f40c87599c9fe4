// sort.Slice over any order in which all elements compare.
module Ordering {
  ghost predicate Compares<T(!new)>(le: (T, T) -> bool) {
    && (forall x, y :: le(x, y) || le(y, x))
    && (forall x, y, z :: le(x, y) && le(y, z) ==> le(x, z))
  }

  ghost predicate Ordered<T>(s: seq<T>, le: (T, T) -> bool) {
    forall i, j :: 0 <= i < j < |s| ==> le(s[i], s[j])
  }

  function Insert<T>(x: T, s: seq<T>, le: (T, T) -> bool): (r: seq<T>)
    ensures multiset(r) == multiset([x]) + multiset(s)
  {
    if s == [] then [x]
    else if le(x, s[0]) then [x] + s
    else
      assert s == [s[0]] + s[1..];
      [s[0]] + Insert(x, s[1..], le)
  }

  lemma {:induction false} InsertKeepsOrder<T(!new)>(x: T, s: seq<T>, le: (T, T) -> bool)
    requires Compares(le) && Ordered(s, le)
    ensures Ordered(Insert(x, s, le), le)
    decreases |s|
  {
    var r := Insert(x, s, le);
    if s != [] && le(x, s[0]) {
      forall j | 0 < j < |s| ensures le(x, s[j]) { assert le(s[0], s[j]); }
    } else if s != [] {
      InsertKeepsOrder(x, s[1..], le);
      forall j | 0 < j < |r| ensures le(s[0], r[j]) {
        assert r[j] in multiset(Insert(x, s[1..], le));
        assert r[j] in multiset([x]) + multiset(s[1..]);
        assert r[j] == x || r[j] in s[1..];
      }
    }
  }

  // Stands for sort.Slice: callers may rely on the order only, not on how ties
  // end up.
  method SortSlice<T(!new)>(a: array<T>, le: (T, T) -> bool)
    requires Compares(le)
    modifies a
    ensures Ordered(a[..], le) && multiset(a[..]) == multiset(old(a[..]))
  {
    hide Compares, Ordered;
    var s := [];
    ghost var was := a[..];
    assert Ordered(s, le) by { NothingToOrder(le); }
    for i := 0 to a.Length
      invariant a[..] == was
      invariant Ordered(s, le) && multiset(s) == multiset(was[..i])
    {
      assert was[..i + 1] == was[..i] + [was[i]];
      InsertKeepsOrder(a[i], s, le);
      s := Insert(a[i], s, le);
    }
    assert was[..a.Length] == was;
    assert |s| == |multiset(s)| == |multiset(was)| == a.Length;
    forall i | 0 <= i < a.Length { a[i] := s[i]; }
    assert a[..] == s;
  }

  lemma NothingToOrder<T>(le: (T, T) -> bool)
    ensures Ordered([], le)
  {
  }
}
