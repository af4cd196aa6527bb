// The order-by-key sorts of the standard library, as insertion sort, and the
// facts the program relies on: the result is a sorted permutation, and a sorted
// permutation is unique once no two elements tie.

module Sorting {

  ghost predicate Sorted<T(!new)>(s: seq<T>, le: (T, T) -> bool) {
    forall i, j :: 0 <= i < j < |s| ==> le(s[i], s[j])
  }

  ghost predicate TotalPreorder<T(!new)>(le: (T, T) -> bool) {
    && (forall x, y :: le(x, y) || le(y, x))
    && (forall x, y, z :: le(x, y) && le(y, z) ==> le(x, z))
  }

  // No two different elements of s tie.
  ghost predicate NoTies<T(!new)>(s: seq<T>, le: (T, T) -> bool) {
    forall x, y :: x in s && y in s && le(x, y) && le(y, x) ==> x == y
  }

  function Insert<T>(x: T, s: seq<T>, le: (T, T) -> bool): seq<T> {
    if s == [] || le(x, s[0]) then [x] + s else [s[0]] + Insert(x, s[1..], le)
  }

  function Sort<T>(s: seq<T>, le: (T, T) -> bool): seq<T> {
    if s == [] then [] else Insert(s[0], Sort(s[1..], le), le)
  }

  lemma Transitive<T(!new)>(le: (T, T) -> bool, x: T, y: T, z: T)
    requires TotalPreorder(le) && le(x, y) && le(y, z)
    ensures le(x, z)
  {
  }

  lemma Comparable<T(!new)>(le: (T, T) -> bool, x: T, y: T)
    requires TotalPreorder(le)
    ensures le(x, y) || le(y, x)
  {
  }

  lemma {:induction false} InsertPermutes<T>(x: T, s: seq<T>, le: (T, T) -> bool)
    ensures multiset(Insert(x, s, le)) == multiset(s) + multiset{x}
  {
    if s == [] || le(x, s[0]) {
    } else {
      InsertPermutes(x, s[1..], le);
      assert s == [s[0]] + s[1..];
    }
  }

  lemma {:induction false} InsertSorted<T(!new)>(x: T, s: seq<T>, le: (T, T) -> bool)
    requires TotalPreorder(le) && Sorted(s, le)
    ensures Sorted(Insert(x, s, le), le)
  {
    if s == [] {
    } else if le(x, s[0]) {
      forall k | 0 <= k < |s| ensures le(x, s[k]) {
        if k > 0 {
          Transitive(le, x, s[0], s[k]);
        }
      }
    } else {
      InsertSorted(x, s[1..], le);
      InsertPermutes(x, s[1..], le);
      var t := Insert(x, s[1..], le);
      Comparable(le, x, s[0]);
      forall k | 0 <= k < |t| ensures le(s[0], t[k]) {
        assert t[k] in multiset(t);
        assert t[k] in s[1..] || t[k] == x;
      }
    }
  }

  lemma {:induction false} SortIsSortedPermutation<T(!new)>(s: seq<T>, le: (T, T) -> bool)
    requires TotalPreorder(le)
    ensures Sorted(Sort(s, le), le)
    ensures multiset(Sort(s, le)) == multiset(s)
    ensures |Sort(s, le)| == |s|
  {
    if s == [] {
    } else {
      SortIsSortedPermutation(s[1..], le);
      InsertSorted(s[0], Sort(s[1..], le), le);
      InsertPermutes(s[0], Sort(s[1..], le), le);
      assert s == [s[0]] + s[1..];
    }
    assert |multiset(Sort(s, le))| == |multiset(s)|;
  }

  lemma {:induction false} SortedUnique<T(!new)>(a: seq<T>, b: seq<T>, le: (T, T) -> bool)
    requires TotalPreorder(le)
    requires Sorted(a, le) && Sorted(b, le)
    requires multiset(a) == multiset(b)
    requires NoTies(a, le)
    ensures a == b
  {
    hide Sorted, NoTies, TotalPreorder;
    assert |multiset(a)| == |a| && |multiset(b)| == |b|;
    if a == [] {
    } else {
      SortedHead(a, b, le);
      SortedHead(b, a, le);
      assert a[0] in multiset(a) && b[0] in multiset(b);
      NoTie(a, le, a[0], b[0]);
      TailSorted(a, le);
      TailSorted(b, le);
      TailNoTies(a, le);
      TailMultiset(a);
      TailMultiset(b);
      SortedUnique(a[1..], b[1..], le);
      assert a == [a[0]] + a[1..] && b == [b[0]] + b[1..];
    }
  }

  lemma TailMultiset<T>(s: seq<T>)
    requires s != []
    ensures multiset(s[1..]) == multiset(s) - multiset{s[0]}
  {
    assert s == [s[0]] + s[1..];
  }

  lemma RemoveAt<T>(s: seq<T>, i: nat)
    requires i < |s|
    ensures multiset(s[..i] + s[i + 1..]) == multiset(s) - multiset{s[i]}
  {
    assert s == s[..i] + [s[i]] + s[i + 1..];
  }

  lemma NoTie<T(!new)>(s: seq<T>, le: (T, T) -> bool, x: T, y: T)
    requires NoTies(s, le) && x in multiset(s) && y in multiset(s) && le(x, y) && le(y, x)
    ensures x == y
  {
  }

  lemma TailSorted<T(!new)>(s: seq<T>, le: (T, T) -> bool)
    requires s != [] && Sorted(s, le)
    ensures Sorted(s[1..], le)
  {
  }

  lemma TailNoTies<T(!new)>(s: seq<T>, le: (T, T) -> bool)
    requires s != [] && NoTies(s, le)
    ensures NoTies(s[1..], le)
  {
  }

  lemma SortedHead<T(!new)>(a: seq<T>, b: seq<T>, le: (T, T) -> bool)
    requires TotalPreorder(le) && Sorted(a, le)
    requires multiset(a) == multiset(b) && b != []
    ensures a != [] && le(a[0], b[0])
  {
    assert b[0] in multiset(a);
    var j :| 0 <= j < |a| && a[j] == b[0];
    Comparable(le, a[0], a[0]);
  }

  // Element by element.
  function Map<S, T>(f: S -> T, s: seq<S>): (r: seq<T>)
    ensures |r| == |s| && forall i :: 0 <= i < |s| ==> r[i] == f(s[i])
  {
    if s == [] then [] else [f(s[0])] + Map(f, s[1..])
  }

  lemma {:induction false} MapPermutation<S, T>(f: S -> T, a: seq<S>, b: seq<S>)
    requires multiset(a) == multiset(b)
    ensures multiset(Map(f, a)) == multiset(Map(f, b))
  {
    hide Map;
    assert |multiset(a)| == |a| && |multiset(b)| == |b|;
    if a == [] {
      assert Map(f, a) == Map(f, b);
    } else {
      var i := HeadElsewhere(a, b);
      MapPermutation(f, a[1..], b[..i] + b[i + 1..]);
      MapSplit(f, b, i);
      MapHead(f, a);
    }
  }

  lemma HeadElsewhere<T>(a: seq<T>, b: seq<T>) returns (i: nat)
    requires a != [] && multiset(a) == multiset(b)
    ensures i < |b| && b[i] == a[0] && multiset(a[1..]) == multiset(b[..i] + b[i + 1..])
  {
    assert a[0] in multiset(b);
    i :| 0 <= i < |b| && b[i] == a[0];
    TailMultiset(a);
    RemoveAt(b, i);
  }

  lemma MapHead<S, T>(f: S -> T, a: seq<S>)
    requires a != []
    ensures multiset(Map(f, a)) == multiset{f(a[0])} + multiset(Map(f, a[1..]))
  {
  }

  lemma MapSplit<S, T>(f: S -> T, b: seq<S>, i: nat)
    requires i < |b|
    ensures multiset(Map(f, b)) == multiset{f(b[i])} + multiset(Map(f, b[..i] + b[i + 1..]))
  {
    hide Map;
    var r := Map(f, b);
    MapRest(f, b, i);
    RemoveAt(r, i);
    assert r[i] in multiset(r);
  }

  lemma {:induction false} MapRest<S, T>(f: S -> T, b: seq<S>, i: nat)
    requires i < |b|
    ensures Map(f, b[..i] + b[i + 1..]) == Map(f, b)[..i] + Map(f, b)[i + 1..]
  {
    hide Map;
    var rest := b[..i] + b[i + 1..];
    forall k | 0 <= k < |rest| ensures Map(f, rest)[k] == (Map(f, b)[..i] + Map(f, b)[i + 1..])[k] {
      assert rest[k] == if k < i then b[k] else b[k + 1];
    }
  }

  // Sequences without repetition and with the same elements are permutations.
  ghost predicate Distinct<T(!new)>(s: seq<T>) {
    forall i, j :: 0 <= i < j < |s| ==> s[i] != s[j]
  }

  lemma {:induction false} DistinctMultiplicity<T(!new)>(s: seq<T>, x: T)
    requires Distinct(s)
    ensures multiset(s)[x] == if x in s then 1 else 0
  {
    if s == [] {
    } else {
      assert s == [s[0]] + s[1..];
      DistinctMultiplicity(s[1..], x);
    }
  }

  lemma SameElementsPermutation<T(!new)>(a: seq<T>, b: seq<T>)
    requires Distinct(a) && Distinct(b)
    requires forall x :: x in a <==> x in b
    ensures multiset(a) == multiset(b)
  {
    forall x ensures multiset(a)[x] == multiset(b)[x] {
      DistinctMultiplicity(a, x);
      DistinctMultiplicity(b, x);
    }
  }

  lemma PermutationKeepsDistinct<T(!new)>(a: seq<T>, b: seq<T>)
    requires Distinct(a) && multiset(a) == multiset(b)
    ensures Distinct(b) && forall x :: x in a <==> x in b
  {
    forall x ensures x in a <==> x in b {
      assert x in multiset(a) <==> x in multiset(b);
    }
    forall i, j | 0 <= i < j < |b| ensures b[i] != b[j] {
      if b[i] == b[j] {
        TwiceIn(b, i, j);
        DistinctMultiplicity(a, b[i]);
      }
    }
  }

  lemma TwiceIn<T>(s: seq<T>, i: nat, j: nat)
    requires i < j < |s| && s[i] == s[j]
    ensures multiset(s)[s[i]] >= 2
  {
    assert s == s[..j] + s[j..];
    assert s[i] in s[..j] && s[i] in s[j..];
  }

  // The elements of a finite set, each once.
  ghost function Listing<T>(s: set<T>): (r: seq<T>)
    ensures |r| == |s|
  {
    if s == {} then [] else var x :| x in s; [x] + Listing(s - {x})
  }

  lemma {:induction false} ListingOf<T(!new)>(s: set<T>)
    ensures Distinct(Listing(s)) && forall x :: x in s <==> x in Listing(s)
  {
    if s == {} {
    } else {
      var r := Listing(s);
      ListingOf(s - {r[0]});
      assert r[1..] == Listing(s - {r[0]});
      assert r == [r[0]] + r[1..];
    }
  }

  lemma SubsetSize<T>(a: set<T>, b: set<T>)
    requires a <= b
    ensures |a| <= |b|
  {
    assert b == a + (b - a);
  }

  // A finite set in order.
  ghost function Ordered<T>(s: set<T>, le: (T, T) -> bool): seq<T> {
    Sort(Listing(s), le)
  }

  ghost predicate IsOrdered<T(!new)>(r: seq<T>, s: set<T>, le: (T, T) -> bool) {
    Sorted(r, le) && Distinct(r) && forall x :: x in s <==> x in r
  }

  lemma OrderedOf<T(!new)>(s: set<T>, le: (T, T) -> bool)
    requires TotalPreorder(le)
    ensures IsOrdered(Ordered(s, le), s, le)
    ensures |Ordered(s, le)| == |s|
  {
    ListingOf(s);
    SortIsSortedPermutation(Listing(s), le);
    PermutationKeepsDistinct(Listing(s), Ordered(s, le));
  }

  lemma {:induction false} DistinctSize<T(!new)>(r: seq<T>, s: set<T>)
    requires Distinct(r) && forall x :: x in s <==> x in r
    ensures |r| == |s|
  {
    if r == [] {
    } else {
      assert r == [r[0]] + r[1..];
      assert r[0] in s;
      DistinctSize(r[1..], s - {r[0]});
    }
  }
}
