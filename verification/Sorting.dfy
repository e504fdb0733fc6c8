/** Sorting by a strict order, and the byte order on strings. */
module Sorting {

  /** `less` orders the values in `dom` strictly: of any two different ones, one comes first. */
  ghost predicate Orders<T(!new)>(less: (T, T) -> bool, dom: set<T>) {
    && (forall x, y | x in dom && y in dom && less(x, y) :: !less(y, x))
    && (forall x, y | x in dom && y in dom && x != y :: less(x, y) || less(y, x))
    && (forall x, y, z | x in dom && y in dom && z in dom && less(x, y) && less(y, z) :: less(x, z))
  }

  ghost predicate Sorted<T(!new)>(less: (T, T) -> bool, s: seq<T>) {
    forall i, j | 0 <= i < j < |s| :: less(s[i], s[j])
  }

  ghost predicate Distinct<T>(s: seq<T>) {
    forall i, j | 0 <= i < j < |s| :: s[i] != s[j]
  }

  ghost predicate Within<T>(s: seq<T>, dom: set<T>) {
    forall i | 0 <= i < |s| :: s[i] in dom
  }

  function Insert<T>(less: (T, T) -> bool, x: T, s: seq<T>): (r: seq<T>)
    ensures |r| == |s| + 1
  {
    if s == [] || !less(s[0], x) then [x] + s else [s[0]] + Insert(less, x, s[1..])
  }

  function Sort<T>(less: (T, T) -> bool, s: seq<T>): (r: seq<T>)
    ensures |r| == |s|
  {
    if s == [] then [] else Insert(less, s[0], Sort(less, s[1..]))
  }

  lemma {:induction false} InsertMembers<T>(less: (T, T) -> bool, x: T, s: seq<T>)
    ensures forall y :: y in Insert(less, x, s) <==> y == x || y in s
  {
    if s != [] && less(s[0], x) {
      InsertMembers(less, x, s[1..]);
      assert forall y :: y in s <==> y == s[0] || y in s[1..];
    }
  }

  lemma {:induction false} SortMembers<T>(less: (T, T) -> bool, s: seq<T>)
    ensures forall y :: y in Sort(less, s) <==> y in s
  {
    if s != [] {
      SortMembers(less, s[1..]);
      InsertMembers(less, s[0], Sort(less, s[1..]));
      assert forall y :: y in s <==> y == s[0] || y in s[1..];
    }
  }

  lemma {:induction false} InsertSorted<T(!new)>(less: (T, T) -> bool, dom: set<T>, x: T, s: seq<T>)
    requires Orders(less, dom) && x in dom && Within(s, dom)
    requires Sorted(less, s) && x !in s
    ensures Sorted(less, Insert(less, x, s))
  {
    if s != [] && less(s[0], x) {
      InsertSorted(less, dom, x, s[1..]);
      InsertMembers(less, x, s[1..]);
      var r := Insert(less, x, s[1..]);
      forall j | 0 <= j < |r| ensures less(s[0], r[j]) {
        assert r[j] in r;
      }
    }
  }

  /** Sorting distinct elements gives the same elements in order. */
  lemma {:induction false} SortSorted<T(!new)>(less: (T, T) -> bool, dom: set<T>, s: seq<T>)
    requires Orders(less, dom) && Within(s, dom) && Distinct(s)
    ensures Sorted(less, Sort(less, s))
    ensures Within(Sort(less, s), dom)
  {
    SortMembers(less, s);
    forall i | 0 <= i < |s| ensures Sort(less, s)[i] in dom {
      assert Sort(less, s)[i] in Sort(less, s);
    }
    if s != [] {
      SortSorted(less, dom, s[1..]);
      SortMembers(less, s[1..]);
      InsertSorted(less, dom, s[0], Sort(less, s[1..]));
    }
  }

  /** Two sorted sequences with the same elements are equal. */
  lemma {:induction false} SortedUnique<T(!new)>(less: (T, T) -> bool, dom: set<T>, a: seq<T>, b: seq<T>)
    requires Orders(less, dom) && Within(a, dom) && Within(b, dom)
    requires Sorted(less, a) && Sorted(less, b)
    requires forall x :: x in a <==> x in b
    ensures a == b
  {
    if a != [] {
      assert a[0] in b;
    }
    if b != [] {
      assert b[0] in a;
      assert a[0] == b[0];
      forall x ensures x in a[1..] <==> x in b[1..] {
        assert x in a[1..] ==> x in a && x != a[0];
        assert x in b[1..] ==> x in b && x != b[0];
      }
      SortedUnique(less, dom, a[1..], b[1..]);
      assert a == [a[0]] + a[1..] && b == [b[0]] + b[1..];
    }
  }

  /** Sorting distinct elements does not depend on the order they come in. */
  lemma SortIgnoresOrder<T(!new)>(less: (T, T) -> bool, dom: set<T>, a: seq<T>, b: seq<T>)
    requires Orders(less, dom) && Within(a, dom) && Within(b, dom) && Distinct(a) && Distinct(b)
    requires forall x :: x in a <==> x in b
    ensures Sort(less, a) == Sort(less, b)
  {
    SortSorted(less, dom, a);
    SortSorted(less, dom, b);
    SortMembers(less, a);
    SortMembers(less, b);
    SortedUnique(less, dom, Sort(less, a), Sort(less, b));
  }

  /** The first elements of a sorted sequence are in order and come before the others. */
  lemma FirstOfSorted<T(!new)>(less: (T, T) -> bool, s: seq<T>, k: nat)
    requires Sorted(less, s) && k <= |s|
    ensures Sorted(less, s[..k]) && (forall x | x in s[..k] :: x in s)
    ensures forall x, y | x in s[..k] && y in s && y !in s[..k] :: less(x, y)
  {
    forall x, y | x in s[..k] && y in s && y !in s[..k] ensures less(x, y) {
      var i :| 0 <= i < k && s[i] == x;
      assert s == s[..k] + s[k..];
      var j :| k <= j < |s| && s[j] == y;
    }
  }

  // ---- strings ----

  predicate Before(a: string, b: string) {
    if b == "" then false
    else if a == "" then true
    else a[0] < b[0] || (a[0] == b[0] && Before(a[1..], b[1..]))
  }

  lemma {:induction false} BeforeTrichotomy(a: string, b: string)
    ensures Before(a, b) ==> !Before(b, a) && a != b
    ensures a != b ==> Before(a, b) || Before(b, a)
  {
    if a != "" && b != "" && a[0] == b[0] {
      BeforeTrichotomy(a[1..], b[1..]);
      assert a == [a[0]] + a[1..] && b == [b[0]] + b[1..];
    }
  }

  lemma {:induction false} BeforeTransitive(a: string, b: string, c: string)
    requires Before(a, b) && Before(b, c)
    ensures Before(a, c)
  {
    if a != "" && a[0] == b[0] && b[0] == c[0] {
      BeforeTransitive(a[1..], b[1..], c[1..]);
    }
  }

  /** The two texts are the same up to place `i`, where the first has the smaller character. */
  predicate SmallerAt(a: string, b: string, i: nat) {
    i < |a| && i < |b| && a[..i] == b[..i] && a[i] < b[i]
  }

  lemma SmallerLater(a: string, b: string, i: nat)
    requires a != "" && b != "" && a[0] == b[0]
    ensures SmallerAt(a, b, i + 1) <==> SmallerAt(a[1..], b[1..], i)
    ensures !SmallerAt(a, b, 0)
  {
    if i + 1 < |a| && i + 1 < |b| {
      assert a[..i + 1] == [a[0]] + a[1..][..i] && b[..i + 1] == [b[0]] + b[1..][..i];
      assert a[1..][..i] == a[..i + 1][1..] && b[1..][..i] == b[..i + 1][1..];
    }
  }

  lemma SmallerAtOnce(a: string, b: string)
    requires a != "" && b != "" && a[0] != b[0]
    ensures (exists i: nat :: SmallerAt(a, b, i)) <==> a[0] < b[0]
    ensures !(a <= b)
  {
    assert a[..0] == b[..0];
    assert a[0] < b[0] ==> SmallerAt(a, b, 0);
    forall i: nat | 0 < i < |a| && i < |b| ensures a[..i] != b[..i] {
      assert a[..i][0] == a[0] && b[..i][0] == b[0];
    }
  }

  /** One text comes before another exactly when it is a proper beginning of it, or has the smaller character at the
      first place where the two differ. */
  lemma {:induction false} BeforeIff(a: string, b: string)
    ensures Before(a, b) <==> a < b || exists i: nat :: SmallerAt(a, b, i)
  {
    hide SmallerAt;
    if a == "" || b == "" {
      NothingSmaller(a, b);
    } else if a[0] == b[0] {
      var s, t := a[1..], b[1..];
      assert a == [a[0]] + s && b == [b[0]] + t;
      assert a < b <==> s < t;
      BeforeIff(s, t);
      if i: nat :| SmallerAt(s, t, i) {
        SmallerLater(a, b, i);
      }
      if i: nat :| SmallerAt(a, b, i) {
        SmallerLater(a, b, 0);
        SmallerLater(a, b, i - 1);
      }
    } else {
      SmallerAtOnce(a, b);
    }
  }

  lemma NothingSmaller(a: string, b: string)
    requires a == "" || b == ""
    ensures forall i: nat :: !SmallerAt(a, b, i)
  {
  }
}
