/** The byte-wise order in which Go compares credential IDs, and sorted enumerations of
    finite sets, which a strict order makes unique. */
module Ordering {

  predicate Before(a: string, b: string) {
    if b == "" then false
    else if a == "" then true
    else a[0] < b[0] || (a[0] == b[0] && Before(a[1..], b[1..]))
  }

  lemma {:induction false} BeforeIsStrict(a: string, b: string)
    requires Before(a, b)
    ensures !Before(b, a) && a != b
  {
    if a != "" && a[0] == b[0] {
      BeforeIsStrict(a[1..], b[1..]);
    }
  }

  lemma {:induction false} BeforeIsTotal(a: string, b: string)
    ensures Before(a, b) || a == b || Before(b, a)
  {
    if a != "" && b != "" && a[0] == b[0] {
      BeforeIsTotal(a[1..], b[1..]);
      assert a == [a[0]] + a[1..] && b == [b[0]] + b[1..];
    }
  }

  lemma {:induction false} BeforeIsTransitive(a: string, b: string, c: string)
    requires Before(a, b) && Before(b, c)
    ensures Before(a, c)
  {
    if a != "" && a[0] == b[0] && b[0] == c[0] {
      BeforeIsTransitive(a[1..], b[1..], c[1..]);
    }
  }

  lemma BeforeIsOrder()
    ensures StrictOrder(Before)
  {
    forall a, b | Before(a, b) ensures !Before(b, a) { BeforeIsStrict(a, b); }
    forall a, b ensures Before(a, b) || a == b || Before(b, a) { BeforeIsTotal(a, b); }
    forall a, b, c | Before(a, b) && Before(b, c) ensures Before(a, c) { BeforeIsTransitive(a, b, c); }
  }

  // ----- sorted enumerations

  ghost predicate StrictOrder<T(!new)>(less: (T, T) -> bool) {
    && (forall a, b :: less(a, b) ==> !less(b, a))
    && (forall a, b :: less(a, b) || a == b || less(b, a))
    && (forall a, b, c :: less(a, b) && less(b, c) ==> less(a, c))
  }

  ghost predicate Sorted<T(!new)>(s: seq<T>, less: (T, T) -> bool) {
    forall i, j :: 0 <= i < j < |s| ==> less(s[i], s[j])
  }

  /** `s` is the sorted enumeration of the members of `S`. */
  ghost predicate Lists<T(!new)>(s: seq<T>, S: set<T>, less: (T, T) -> bool) {
    Sorted(s, less) && forall x :: x in s <==> x in S
  }

  lemma NoneListed()
    ensures Lists([], {}, Before)
  {
  }

  /** A greatest element goes to the end. */
  lemma ListsMore<T(!new)>(s: seq<T>, S: set<T>, less: (T, T) -> bool, x: T)
    requires Lists(s, S, less) && forall y :: y in S ==> less(y, x)
    ensures Lists(s + [x], S + {x}, less)
  {
    forall i, j | 0 <= i < j < |s| + 1 ensures less((s + [x])[i], (s + [x])[j]) {
      if j == |s| {
        assert s[i] in S;
      }
    }
  }

  /** A finite set has at most one sorted enumeration. */
  lemma {:induction false} ListsUnique<T(!new)>(s: seq<T>, t: seq<T>, S: set<T>, less: (T, T) -> bool)
    requires StrictOrder(less) && Lists(s, S, less) && Lists(t, S, less)
    ensures s == t
  {
    assert s != [] ==> s[0] in S;
    assert t != [] ==> t[0] in S;
    if s != [] && t != [] {
      assert s[0] in t && t[0] in s;
      TailLists(s, S, less);
      TailLists(t, S, less);
      ListsUnique(s[1..], t[1..], S - {s[0]}, less);
      assert s == [s[0]] + s[1..] && t == [t[0]] + t[1..];
    }
  }

  lemma TailLists<T(!new)>(s: seq<T>, S: set<T>, less: (T, T) -> bool)
    requires StrictOrder(less) && Lists(s, S, less) && s != []
    ensures Lists(s[1..], S - {s[0]}, less)
  {
    forall x ensures x in s[1..] <==> x in S - {s[0]} {
      assert x in s <==> x == s[0] || x in s[1..] by { assert s == [s[0]] + s[1..]; }
    }
  }

  /** Place `x` in the sorted sequence `s`. */
  method Insert<T(!new)>(s: seq<T>, x: T, less: (T, T) -> bool) returns (r: seq<T>)
    requires StrictOrder(less) && Sorted(s, less) && x !in s
    ensures Sorted(r, less)
    ensures forall y :: y in r <==> y in s || y == x
  {
    var k := |s|;
    while k > 0 && less(x, s[k - 1])
      invariant 0 <= k <= |s|
      invariant forall i :: k <= i < |s| ==> less(x, s[i])
    {
      k := k - 1;
    }
    r := s[..k] + [x] + s[k..];
    InsertedAt(s, x, k, less);
  }

  lemma InsertedAt<T(!new)>(s: seq<T>, x: T, k: nat, less: (T, T) -> bool)
    requires StrictOrder(less) && Sorted(s, less) && x !in s && k <= |s|
    requires (k > 0 ==> !less(x, s[k - 1])) && forall i :: k <= i < |s| ==> less(x, s[i])
    ensures var r := s[..k] + [x] + s[k..]; Sorted(r, less) && forall y :: y in r <==> y in s || y == x
  {
    hide StrictOrder, Sorted;
    forall i | 0 <= i < k ensures less(s[i], x) {
      LessBefore(s, x, k, less, i);
    }
    StaysSorted(s, x, k, less);
    SameMembers(s, x, k);
  }

  lemma LessBefore<T(!new)>(s: seq<T>, x: T, k: nat, less: (T, T) -> bool, i: nat)
    requires StrictOrder(less) && Sorted(s, less) && x !in s && i < k <= |s| && !less(x, s[k - 1])
    ensures less(s[i], x)
  {
    assert s[k - 1] in s;
    assert less(s[k - 1], x);
  }

  lemma StaysSorted<T(!new)>(s: seq<T>, x: T, k: nat, less: (T, T) -> bool)
    requires Sorted(s, less) && k <= |s|
    requires (forall i :: 0 <= i < k ==> less(s[i], x)) && forall i :: k <= i < |s| ==> less(x, s[i])
    ensures Sorted(s[..k] + [x] + s[k..], less)
  {
    var r := s[..k] + [x] + s[k..];
    forall i, j | 0 <= i < j < |r| ensures less(r[i], r[j]) {
      assert r[i] == if i < k then s[i] else if i == k then x else s[i - 1];
      assert r[j] == if j < k then s[j] else if j == k then x else s[j - 1];
    }
  }

  lemma SameMembers<T(!new)>(s: seq<T>, x: T, k: nat)
    requires k <= |s|
    ensures forall y :: y in s[..k] + [x] + s[k..] <==> y in s || y == x
  {
    assert s == s[..k] + s[k..];
  }

  /** sort.Slice over the members of a set. */
  method Sort<T(==, !new)>(S: set<T>, less: (T, T) -> bool) returns (s: seq<T>)
    requires StrictOrder(less)
    ensures Lists(s, S, less)
  {
    s := [];
    var todo := S;
    while todo != {}
      invariant todo <= S && Lists(s, S - todo, less)
    {
      var x :| x in todo;
      s := Insert(s, x, less);
      todo := todo - {x};
    }
  }

  lemma Witness<T>(S: set<T>) returns (x: T)
    requires S != {}
    ensures x in S
  {
    x :| x in S;
  }

  ghost predicate Distinct<T(!new)>(s: seq<T>) {
    forall i, j :: 0 <= i < j < |s| ==> s[i] != s[j]
  }

  lemma {:induction false} Within<T>(some: set<T>, all: set<T>)
    requires some <= all
    ensures |some| <= |all|
    decreases |some|
  {
    if some != {} {
      var x :| x in some;
      Within(some - {x}, all - {x});
    }
  }

  method SortIds(S: set<string>) returns (s: seq<string>)
    ensures Lists(s, S, Before)
  {
    BeforeIsOrder();
    s := Sort(S, Before);
  }
}
