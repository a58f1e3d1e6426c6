/** Sorting by a total preorder: the stable insertion sort, and that without ties there is one order. */
module Lists {

  /** Any two elements compare, and comparing is transitive. */
  ghost predicate Preorder<T(!new)>(le: (T, T) -> bool) {
    && (forall x, y :: le(x, y) || le(y, x))
    && (forall x, y, z :: le(x, y) && le(y, z) ==> le(x, z))
  }

  predicate Ascending<T>(s: seq<T>, le: (T, T) -> bool) { forall i, j :: 0 <= i < j < |s| ==> le(s[i], s[j]) }

  function Insert<T>(x: T, s: seq<T>, le: (T, T) -> bool): seq<T> {
    if s == [] || le(x, s[0]) then [x] + s else [s[0]] + Insert(x, s[1..], le)
  }

  /** Elements that compare both ways keep their order. */
  function Sort<T>(s: seq<T>, le: (T, T) -> bool): seq<T> {
    if s == [] then [] else Insert(s[0], Sort(s[1..], le), le)
  }

  predicate AllFrom<T>(a: T, s: seq<T>, le: (T, T) -> bool) { forall j :: 0 <= j < |s| ==> le(a, s[j]) }

  lemma AscendingCons<T>(a: T, s: seq<T>, le: (T, T) -> bool)
    requires Ascending(s, le) && AllFrom(a, s, le)
    ensures Ascending([a] + s, le)
  {
  }

  lemma {:induction false} InsertKeeps<T>(x: T, s: seq<T>, le: (T, T) -> bool)
    ensures multiset(Insert(x, s, le)) == multiset(s) + multiset{x}
  {
    if s != [] {
      InsertKeeps(x, s[1..], le);
      assert s == [s[0]] + s[1..];
    }
  }

  lemma {:induction false} SortKeeps<T>(s: seq<T>, le: (T, T) -> bool)
    ensures multiset(Sort(s, le)) == multiset(s)
  {
    if s != [] {
      SortKeeps(s[1..], le);
      InsertKeeps(s[0], Sort(s[1..], le), le);
      assert s == [s[0]] + s[1..];
    }
  }

  lemma FromInsert<T>(a: T, x: T, s: seq<T>, le: (T, T) -> bool)
    requires AllFrom(a, s, le) && le(a, x)
    ensures AllFrom(a, Insert(x, s, le), le)
  {
    InsertKeeps(x, s, le);
    var r := Insert(x, s, le);
    forall j | 0 <= j < |r| ensures le(a, r[j]) { assert r[j] in multiset(r); }
  }

  lemma {:induction false} InsertAscends<T(!new)>(x: T, s: seq<T>, le: (T, T) -> bool)
    requires Preorder(le) && Ascending(s, le)
    ensures Ascending(Insert(x, s, le), le)
  {
    if s == [] {
    } else if le(x, s[0]) {
      AscendingCons(x, s, le);
    } else {
      InsertAscends(x, s[1..], le);
      FromInsert(s[0], x, s[1..], le);
      AscendingCons(s[0], Insert(x, s[1..], le), le);
    }
  }

  lemma {:induction false} SortAscends<T(!new)>(s: seq<T>, le: (T, T) -> bool)
    requires Preorder(le)
    ensures Ascending(Sort(s, le), le)
  {
    if s != [] {
      SortAscends(s[1..], le);
      InsertAscends(s[0], Sort(s[1..], le), le);
    }
  }

  // ------------------------------------------------------------------ one order

  predicate NoTies<T(==)>(s: seq<T>, le: (T, T) -> bool) {
    forall i, j :: 0 <= i < |s| && 0 <= j < |s| && le(s[i], s[j]) && le(s[j], s[i]) ==> s[i] == s[j]
  }

  lemma SameRest<T>(a: seq<T>, b: seq<T>)
    requires a != [] && b != [] && a[0] == b[0] && multiset(a) == multiset(b)
    ensures multiset(a[1..]) == multiset(b[1..])
  {
    assert a == [a[0]] + a[1..] && b == [b[0]] + b[1..];
    assert multiset(a[1..]) == multiset(a) - multiset{a[0]};
  }

  lemma SameHead<T>(s: seq<T>, t: seq<T>, le: (T, T) -> bool)
    requires Ascending(s, le) && Ascending(t, le) && multiset(s) == multiset(t) && NoTies(s, le) && s != [] && t != []
    ensures s[0] == t[0]
  {
    assert s[0] in multiset(t) && t[0] in multiset(s);
    var i :| 0 <= i < |t| && t[i] == s[0];
    var j :| 0 <= j < |s| && s[j] == t[0];
  }

  /** Two ascending lists of the same elements are one, when no two elements tie. */
  lemma {:induction false} OneOrder<T>(s: seq<T>, t: seq<T>, le: (T, T) -> bool)
    requires Ascending(s, le) && Ascending(t, le) && multiset(s) == multiset(t) && NoTies(s, le)
    ensures s == t
  {
    assert |multiset(s)| == |s| && |multiset(t)| == |t|;
    if s != [] {
      SameHead(s, t, le);
      SameRest(s, t);
      OneOrder(s[1..], t[1..], le);
      assert s == [s[0]] + s[1..] && t == [t[0]] + t[1..];
    }
  }

  // ------------------------------------------------------------------ counting places

  /** The places whose element has a property. */
  function Places<T>(s: seq<T>, p: T -> bool): set<nat> { set i | 0 <= i < |s| && p(s[i]) }

  /** One more element is at most one more place. */
  lemma PlacesGrow<T>(s: seq<T>, p: T -> bool)
    requires s != []
    ensures |Places(s, p)| == |Places(s[..|s| - 1], p)| + if p(s[|s| - 1]) then 1 else 0
  {
    var n := |s| - 1;
    assert Places(s, p) == Places(s[..n], p) + (if p(s[n]) then {n} else {});
  }
}
