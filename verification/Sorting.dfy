/**
 Python's stable `list.sort`, as insertion into an already sorted tail.
 `le` is the comparison of sort keys; it must be total and transitive.
 */
module Sorting {

  ghost predicate IsOrder<T(!new)>(le: (T, T) -> bool) {
    && (forall x, y :: le(x, y) || le(y, x))
    && (forall x, y, z :: le(x, y) && le(y, z) ==> le(x, z))
  }

  ghost predicate Sorted<T>(s: seq<T>, le: (T, T) -> bool) {
    forall i, j :: 0 <= i < j < |s| ==> le(s[i], s[j])
  }

  function Insert<T>(x: T, s: seq<T>, le: (T, T) -> bool): seq<T> {
    if |s| == 0 || le(x, s[0]) then [x] + s else [s[0]] + Insert(x, s[1..], le)
  }

  function Sort<T>(s: seq<T>, le: (T, T) -> bool): seq<T> {
    if |s| == 0 then [] else Insert(s[0], Sort(s[1..], le), le)
  }

  lemma {:induction false} InsertPermutes<T>(x: T, s: seq<T>, le: (T, T) -> bool)
    ensures multiset(Insert(x, s, le)) == multiset(s) + multiset{x}
  {
    if |s| == 0 || le(x, s[0]) {
    } else {
      InsertPermutes(x, s[1..], le);
      assert s == [s[0]] + s[1..];
    }
  }

  lemma {:induction false} SortPermutes<T>(s: seq<T>, le: (T, T) -> bool)
    ensures multiset(Sort(s, le)) == multiset(s)
    ensures |Sort(s, le)| == |s|
  {
    if |s| > 0 {
      SortPermutes(s[1..], le);
      InsertPermutes(s[0], Sort(s[1..], le), le);
      assert s == [s[0]] + s[1..];
    }
    assert |multiset(Sort(s, le))| == |Sort(s, le)|;
  }

  lemma {:induction false} InsertSorts<T(!new)>(x: T, s: seq<T>, le: (T, T) -> bool)
    requires IsOrder(le) && Sorted(s, le)
    ensures Sorted(Insert(x, s, le), le)
  {
    if |s| == 0 || le(x, s[0]) {
    } else {
      var tail := Insert(x, s[1..], le);
      InsertSorts(x, s[1..], le);
      InsertPermutes(x, s[1..], le);
      forall k | 0 <= k < |tail| ensures le(s[0], tail[k]) {
        assert tail[k] in multiset(tail);
        if tail[k] != x {
          assert tail[k] in s[1..];
        }
      }
    }
  }

  lemma {:induction false} SortSorts<T(!new)>(s: seq<T>, le: (T, T) -> bool)
    requires IsOrder(le)
    ensures Sorted(Sort(s, le), le)
  {
    if |s| > 0 {
      SortSorts(s[1..], le);
      InsertSorts(s[0], Sort(s[1..], le), le);
    }
  }

  /** Two elements with the same key are the same element. */
  ghost predicate KeysAreUnique<T(!new)>(s: seq<T>, le: (T, T) -> bool) {
    forall x, y :: x in s && y in s && le(x, y) && le(y, x) ==> x == y
  }

  lemma SameHead<T(!new)>(a: seq<T>, b: seq<T>, le: (T, T) -> bool)
    requires IsOrder(le) && Sorted(a, le) && Sorted(b, le) && |a| > 0
    requires multiset(a) == multiset(b) && KeysAreUnique(a, le)
    ensures |b| > 0 && a[0] == b[0]
  {
    assert a[0] in multiset(a);
    assert a[0] in b;
    assert b[0] in multiset(b);
    assert b[0] in a;
    var i :| 0 <= i < |b| && b[i] == a[0];
    var j :| 0 <= j < |a| && a[j] == b[0];
    assert le(a[0], a[j]) && le(b[0], b[i]);
  }

  /** A sorted arrangement is unique when equal keys mean equal elements. */
  lemma {:induction false} SortedIsUnique<T(!new)>(a: seq<T>, b: seq<T>, le: (T, T) -> bool)
    requires IsOrder(le) && Sorted(a, le) && Sorted(b, le)
    requires multiset(a) == multiset(b) && KeysAreUnique(a, le)
    ensures a == b
  {
    if |a| > 0 {
      SameHead(a, b, le);
      assert a == [a[0]] + a[1..] && b == [b[0]] + b[1..];
      assert multiset(a[1..]) == multiset(a) - multiset{a[0]};
      assert multiset(b[1..]) == multiset(b) - multiset{b[0]};
      assert KeysAreUnique(a[1..], le);
      SortedIsUnique(a[1..], b[1..], le);
    } else {
      assert |multiset(b)| == 0;
    }
  }

  /** Sorting forgets the order of its input when equal keys mean equal elements. */
  lemma SortForgetsOrder<T(!new)>(a: seq<T>, b: seq<T>, le: (T, T) -> bool)
    requires IsOrder(le) && multiset(a) == multiset(b) && KeysAreUnique(a, le)
    ensures Sort(a, le) == Sort(b, le)
  {
    SortPermutes(a, le);
    SortPermutes(b, le);
    SortSorts(a, le);
    SortSorts(b, le);
    forall x, y | x in Sort(a, le) && y in Sort(a, le) && le(x, y) && le(y, x) ensures x == y {
      assert x in multiset(Sort(a, le)) && y in multiset(Sort(a, le));
      assert x in a && y in a;
    }
    SortedIsUnique(Sort(a, le), Sort(b, le), le);
  }

  lemma {:induction false} TiesKeepTheirOrder<T(!new)>(x: T, y: T, s: seq<T>, le: (T, T) -> bool)
    requires IsOrder(le) && x != y && le(x, y) && le(y, x)
    ensures Insert(x, Insert(y, s, le), le) != Insert(y, Insert(x, s, le), le)
  {
    var a, b := Insert(x, Insert(y, s, le), le), Insert(y, Insert(x, s, le), le);
    if |s| == 0 || le(y, s[0]) {
      assert a[0] == x && b[0] == y;
    } else {
      TiesKeepTheirOrder(x, y, s[1..], le);
      assert a[1..] == Insert(x, Insert(y, s[1..], le), le);
      assert b[1..] == Insert(y, Insert(x, s[1..], le), le);
    }
  }

  /** With two different elements of one key, some rearrangement sorts differently. */
  lemma SortSeesOrder<T(!new)>(a: seq<T>, le: (T, T) -> bool)
    requires IsOrder(le) && !KeysAreUnique(a, le)
    ensures exists b :: multiset(b) == multiset(a) && Sort(b, le) != Sort(a, le)
  {
    var x, y :| x in a && y in a && le(x, y) && le(y, x) && x != y;
    var rest := Remaining(a, x, y);
    var b, c := [x] + ([y] + rest), [y] + ([x] + rest);
    assert b[1..] == [y] + rest && ([y] + rest)[1..] == rest;
    assert c[1..] == [x] + rest && ([x] + rest)[1..] == rest;
    TiesKeepTheirOrder(x, y, Sort(rest, le), le);
    assert multiset(b) == multiset(a) && multiset(c) == multiset(a);
    assert Sort(b, le) == Insert(x, Insert(y, Sort(rest, le), le), le);
    assert Sort(c, le) == Insert(y, Insert(x, Sort(rest, le), le), le);
    if Sort(b, le) == Sort(a, le) { assert Sort(c, le) != Sort(a, le); }
  }

  /** The sequence without one occurrence of `x`. */
  lemma Without<T>(a: seq<T>, x: T) returns (rest: seq<T>)
    requires x in a
    ensures multiset(rest) + multiset{x} == multiset(a)
  {
    var i :| 0 <= i < |a| && a[i] == x;
    rest := a[..i] + a[i + 1..];
    assert a == a[..i] + [x] + a[i + 1..];
  }

  lemma Remaining<T>(a: seq<T>, x: T, y: T) returns (rest: seq<T>)
    requires x in a && y in a && x != y
    ensures multiset([x] + ([y] + rest)) == multiset(a) && multiset([y] + ([x] + rest)) == multiset(a)
  {
    var s := Without(a, x);
    assert y in multiset(a);
    assert y in multiset(s);
    rest := Without(s, y);
  }

  // ---------------------------------------------------------------------
  // Selecting elements
  // ---------------------------------------------------------------------

  /** The elements that satisfy `p`, in their order. */
  function Select<T>(s: seq<T>, p: T -> bool): seq<T> {
    if |s| == 0 then [] else (if p(s[0]) then [s[0]] else []) + Select(s[1..], p)
  }

  lemma {:induction false} SelectCounts<T>(s: seq<T>, p: T -> bool, x: T)
    ensures multiset(Select(s, p))[x] == if p(x) then multiset(s)[x] else 0
  {
    if |s| > 0 {
      SelectCounts(s[1..], p, x);
      assert s == [s[0]] + s[1..];
    }
  }

  lemma SelectHas<T>(s: seq<T>, p: T -> bool, x: T)
    ensures x in Select(s, p) <==> x in s && p(x)
  {
    SelectCounts(s, p, x);
    assert x in Select(s, p) <==> x in multiset(Select(s, p));
    assert x in s <==> x in multiset(s);
  }

  // ---------------------------------------------------------------------
  // Texts in code-point order
  // ---------------------------------------------------------------------

  predicate TextLe(a: string, b: string) {
    |a| == 0 || (|b| > 0 && (a[0] < b[0] || (a[0] == b[0] && TextLe(a[1..], b[1..]))))
  }

  lemma {:induction false} TextLeTotal(a: string, b: string)
    ensures TextLe(a, b) || TextLe(b, a)
    ensures TextLe(a, b) && TextLe(b, a) ==> a == b
  {
    if |a| > 0 && |b| > 0 && a[0] == b[0] {
      TextLeTotal(a[1..], b[1..]);
      assert a == [a[0]] + a[1..] && b == [b[0]] + b[1..];
    }
  }

  lemma {:induction false} TextLeTransitive(a: string, b: string, c: string)
    requires TextLe(a, b) && TextLe(b, c)
    ensures TextLe(a, c)
  {
    if |a| > 0 && a[0] == b[0] && b[0] == c[0] { TextLeTransitive(a[1..], b[1..], c[1..]); }
  }
}
