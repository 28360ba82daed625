/** A stable ascending sort, the meaning of `Array.prototype.sort` with a numeric comparator. */
module Sorting {

  function Insert<T>(key: T -> real, x: T, s: seq<T>): seq<T> {
    if s == [] || key(x) <= key(s[0]) then [x] + s else [s[0]] + Insert(key, x, s[1..])
  }

  function SortBy<T>(key: T -> real, s: seq<T>): seq<T> {
    if s == [] then [] else Insert(key, s[0], SortBy(key, s[1..]))
  }

  ghost predicate SortedBy<T>(key: T -> real, s: seq<T>) {
    forall i, j :: 0 <= i < j < |s| ==> key(s[i]) <= key(s[j])
  }

  /** The elements whose key is `v`, in order. */
  ghost function Ties<T>(key: T -> real, v: real, s: seq<T>): seq<T> {
    if s == [] then [] else (if key(s[0]) == v then [s[0]] else []) + Ties(key, v, s[1..])
  }

  lemma {:induction false} InsertKeeps<T>(key: T -> real, x: T, s: seq<T>)
    ensures multiset(Insert(key, x, s)) == multiset([x]) + multiset(s)
  {
    if s != [] && key(x) > key(s[0]) {
      InsertKeeps(key, x, s[1..]);
      assert s == [s[0]] + s[1..];
    } else {
      assert Insert(key, x, s) == [x] + s;
    }
  }

  lemma InsertMembers<T>(key: T -> real, x: T, s: seq<T>, y: T)
    requires y in Insert(key, x, s)
    ensures y == x || y in s
  {
    InsertKeeps(key, x, s);
    assert y in multiset(Insert(key, x, s));
  }

  lemma {:induction false} InsertSorts<T>(key: T -> real, x: T, s: seq<T>)
    requires SortedBy(key, s)
    ensures SortedBy(key, Insert(key, x, s))
  {
    if s != [] && key(x) > key(s[0]) {
      var t := Insert(key, x, s[1..]);
      InsertSorts(key, x, s[1..]);
      forall j | 0 <= j < |t| ensures key(s[0]) <= key(t[j]) {
        InsertMembers(key, x, s[1..], t[j]);
      }
      FirstLeast(key, s[0], t);
    }
  }

  lemma FirstLeast<T>(key: T -> real, x: T, s: seq<T>)
    requires SortedBy(key, s) && forall j :: 0 <= j < |s| ==> key(x) <= key(s[j])
    ensures SortedBy(key, [x] + s)
  {
  }

  /** The sort orders its input and neither loses nor invents an element. */
  lemma {:induction false} SortByIsSortedPermutation<T>(key: T -> real, s: seq<T>)
    ensures SortedBy(key, SortBy(key, s))
    ensures multiset(SortBy(key, s)) == multiset(s)
  {
    if s != [] {
      SortByIsSortedPermutation(key, s[1..]);
      InsertSorts(key, s[0], SortBy(key, s[1..]));
      InsertKeeps(key, s[0], SortBy(key, s[1..]));
      assert s == [s[0]] + s[1..];
    }
  }

  lemma {:induction false} InsertTies<T>(key: T -> real, x: T, s: seq<T>, v: real)
    ensures Ties(key, v, Insert(key, x, s)) == (if key(x) == v then [x] else []) + Ties(key, v, s)
  {
    var mine := if key(x) == v then [x] else [];
    if s == [] || key(x) <= key(s[0]) {
      assert Insert(key, x, s) == [x] + s && ([x] + s)[1..] == s;
    } else {
      InsertTies(key, x, s[1..], v);
      var tail := Insert(key, x, s[1..]);
      var first := if key(s[0]) == v then [s[0]] else [];
      assert Insert(key, x, s) == [s[0]] + tail && ([s[0]] + tail)[1..] == tail;
      assert Ties(key, v, Insert(key, x, s)) == first + (mine + Ties(key, v, s[1..]));
      assert mine == [] || first == [];
      assert first + (mine + Ties(key, v, s[1..])) == mine + (first + Ties(key, v, s[1..]));
    }
  }

  /** Elements that compare equal keep the order they had. */
  lemma {:induction false} SortByIsStable<T>(key: T -> real, s: seq<T>, v: real)
    ensures Ties(key, v, SortBy(key, s)) == Ties(key, v, s)
  {
    if s != [] {
      SortByIsStable(key, s[1..], v);
      InsertTies(key, s[0], SortBy(key, s[1..]), v);
    }
  }

  lemma SameElements<T>(key: T -> real, s: seq<T>)
    ensures |SortBy(key, s)| == |s|
    ensures forall x :: x in SortBy(key, s) <==> x in s
  {
    SortByIsSortedPermutation(key, s);
    assert |multiset(SortBy(key, s))| == |multiset(s)|;
    forall x ensures x in SortBy(key, s) <==> x in s {
      assert x in SortBy(key, s) <==> x in multiset(SortBy(key, s));
      assert x in s <==> x in multiset(s);
    }
  }

  /** The first element of the sorted list is the first of the least ones. */
  lemma {:induction false} HeadIsFirstLeast<T>(key: T -> real, s: seq<T>) returns (i: nat)
    requires s != []
    ensures i < |s| && SortBy(key, s) != [] && SortBy(key, s)[0] == s[i]
    ensures forall j :: 0 <= j < |s| ==> key(s[i]) <= key(s[j])
    ensures forall j :: 0 <= j < i ==> key(s[i]) < key(s[j])
  {
    var rest := SortBy(key, s[1..]);
    if |s| == 1 {
      i := 0;
    } else {
      var k := HeadIsFirstLeast(key, s[1..]);
      i := if key(s[0]) <= key(rest[0]) then 0 else k + 1;
    }
  }
}
