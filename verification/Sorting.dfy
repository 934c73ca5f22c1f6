// Sorting with a caller-supplied "less", as sort.Slice, sort.SliceStable and
// sort.Strings take it. Insertion keeps earlier equal elements first, so the
// result is the stable one; where keys are distinct every sort agrees with it.
module Sorting {
  import opened Text

  function Insert<T>(x: T, s: seq<T>, less: (T, T) -> bool): seq<T> {
    if s == [] || !less(s[0], x) then [x] + s else [s[0]] + Insert(x, s[1..], less)
  }

  function Sort<T>(s: seq<T>, less: (T, T) -> bool): seq<T> {
    if s == [] then [] else Insert(s[0], Sort(s[1..], less), less)
  }

  // less is a strict weak order: the contract of the sort package.
  ghost predicate WeakOrder<T(!new)>(less: (T, T) -> bool) {
    && (forall a, b | less(a, b) :: !less(b, a))
    && (forall a, b, c | less(a, b) :: less(a, c) || less(c, b))
  }

  // The same for the elements of one set only.
  ghost predicate WeakOrderOn<T>(among: set<T>, less: (T, T) -> bool) {
    && (forall a, b | a in among && b in among && less(a, b) :: !less(b, a))
    && (forall a, b, c | a in among && b in among && c in among && less(a, b) :: less(a, c) || less(c, b))
  }

  ghost predicate Ordered<T>(s: seq<T>, less: (T, T) -> bool) {
    forall i, j | 0 <= i < j < |s| :: !less(s[j], s[i])
  }

  // Any two different elements of s are ordered one way or the other.
  ghost predicate Separates<T>(s: seq<T>, less: (T, T) -> bool) {
    forall i, j | 0 <= i < |s| && 0 <= j < |s| && s[i] != s[j] :: less(s[i], s[j]) || less(s[j], s[i])
  }

  lemma {:induction false} InsertMultiset<T>(x: T, s: seq<T>, less: (T, T) -> bool)
    ensures multiset(Insert(x, s, less)) == multiset(s) + multiset{x}
  {
    if !(s == [] || !less(s[0], x)) {
      InsertMultiset(x, s[1..], less);
      assert s == [s[0]] + s[1..];
    }
  }

  lemma {:induction false} SortMultiset<T>(s: seq<T>, less: (T, T) -> bool)
    ensures multiset(Sort(s, less)) == multiset(s)
    ensures |Sort(s, less)| == |s|
  {
    if s != [] {
      SortMultiset(s[1..], less);
      InsertMultiset(s[0], Sort(s[1..], less), less);
      assert s == [s[0]] + s[1..];
    }
    assert |multiset(Sort(s, less))| == |Sort(s, less)| && |multiset(s)| == |s|;
  }

  // Sorting keeps exactly the elements.
  lemma SortElements<T>(s: seq<T>, less: (T, T) -> bool, x: T)
    ensures x in Sort(s, less) <==> x in s
  {
    SortMultiset(s, less);
    assert x in s <==> x in multiset(s);
    assert x in Sort(s, less) <==> x in multiset(Sort(s, less));
  }

  lemma {:induction false} InsertOrdered<T>(x: T, s: seq<T>, less: (T, T) -> bool, among: set<T>)
    requires WeakOrderOn(among, less) && Ordered(s, less) && x in among && forall y | y in s :: y in among
    ensures Ordered(Insert(x, s, less), less)
  {
    var r := Insert(x, s, less);
    if s == [] {
    } else if !less(s[0], x) {
      forall i, j | 0 <= i < j < |r| ensures !less(r[j], r[i]) {
        if i == 0 && j > 1 {
          assert r[j] == s[j - 1] && !less(s[j - 1], s[0]) && s[j - 1] in s;
        }
      }
    } else {
      var t := Insert(x, s[1..], less);
      InsertOrdered(x, s[1..], less, among);
      InsertMultiset(x, s[1..], less);
      forall i, j | 0 <= i < j < |r| ensures !less(r[j], r[i]) {
        if i == 0 {
          assert r[j] == t[j - 1] && t[j - 1] in multiset(t);
          if t[j - 1] != x {
            assert t[j - 1] in s[1..];
          }
        }
      }
    }
  }

  lemma {:induction false} SortOrderedOn<T>(s: seq<T>, less: (T, T) -> bool, among: set<T>)
    requires WeakOrderOn(among, less) && forall y | y in s :: y in among
    ensures Ordered(Sort(s, less), less)
  {
    if s != [] {
      SortOrderedOn(s[1..], less, among);
      forall y | y in Sort(s[1..], less) ensures y in among {
        SortElements(s[1..], less, y);
      }
      hide WeakOrderOn;
      InsertOrdered(s[0], Sort(s[1..], less), less, among);
    }
  }

  lemma SortOrdered<T(!new)>(s: seq<T>, less: (T, T) -> bool)
    requires WeakOrder(less)
    ensures Ordered(Sort(s, less), less)
  {
    SortOrderedOn(s, less, Elements(s));
  }

  // Even when less is only asymmetric, neighbours come out in order.
  lemma {:induction false} SortAdjacent<T(!new)>(s: seq<T>, less: (T, T) -> bool)
    requires forall a, b | less(a, b) :: !less(b, a)
    ensures forall i | 0 < i < |Sort(s, less)| :: !less(Sort(s, less)[i], Sort(s, less)[i - 1])
  {
    if s != [] {
      SortAdjacent(s[1..], less);
      InsertAdjacent(s[0], Sort(s[1..], less), less);
    }
  }

  lemma {:induction false} InsertAdjacent<T(!new)>(x: T, s: seq<T>, less: (T, T) -> bool)
    requires forall a, b | less(a, b) :: !less(b, a)
    requires forall i | 0 < i < |s| :: !less(s[i], s[i - 1])
    ensures forall i | 0 < i < |Insert(x, s, less)| :: !less(Insert(x, s, less)[i], Insert(x, s, less)[i - 1])
    ensures Insert(x, s, less)[0] == x || (s != [] && Insert(x, s, less)[0] == s[0])
  {
    if s != [] && less(s[0], x) {
      InsertAdjacent(x, s[1..], less);
    }
  }

  // Sorting something ordered returns it unchanged.
  lemma {:induction false} SortFixed<T>(s: seq<T>, less: (T, T) -> bool)
    requires Ordered(s, less)
    ensures Sort(s, less) == s
  {
    if s != [] {
      SortFixed(s[1..], less);
      assert s == [s[0]] + s[1..];
    }
  }

  // The first element of an ordered arrangement has nothing below it.
  lemma OrderedHead<T>(s: seq<T>, x: T, less: (T, T) -> bool)
    requires Ordered(s, less) && x in s
    ensures x == s[0] || !less(x, s[0])
  {
    var i :| 0 <= i < |s| && s[i] == x;
  }

  lemma MultisetTail<T>(s: seq<T>)
    requires s != []
    ensures multiset(s[1..]) == multiset(s) - multiset{s[0]}
  {
    assert s == [s[0]] + s[1..];
  }

  // Two ordered arrangements of the same elements are equal when less tells
  // different elements apart.
  lemma {:induction false} OrderedUnique<T>(s: seq<T>, t: seq<T>, less: (T, T) -> bool)
    requires Ordered(s, less) && Ordered(t, less)
    requires multiset(s) == multiset(t)
    requires Separates(s, less)
    ensures s == t
  {
    assert |s| == |multiset(s)| == |multiset(t)| == |t|;
    if s != [] {
      assert s[0] in multiset(t) && t[0] in multiset(s);
      OrderedHead(s, t[0], less);
      OrderedHead(t, s[0], less);
      var i :| 0 <= i < |s| && s[i] == t[0];
      assert s[0] == s[i];
      MultisetTail(s);
      MultisetTail(t);
      OrderedUnique(s[1..], t[1..], less);
      assert s == [s[0]] + s[1..] && t == [t[0]] + t[1..];
    }
  }

  // Where less orders the elements of s and tells them apart, every sort
  // comes to the same arrangement.
  lemma AnySortAgrees<T>(s: seq<T>, p: seq<T>, less: (T, T) -> bool)
    requires WeakOrderOn(Elements(s), less) && Separates(s, less) && multiset(p) == multiset(s) && Ordered(p, less)
    ensures p == Sort(s, less)
  {
    SortOrderedOn(s, less, Elements(s));
    SortMultiset(s, less);
    forall i, j | 0 <= i < |p| && 0 <= j < |p| && p[i] != p[j] ensures less(p[i], p[j]) || less(p[j], p[i]) {
      assert p[i] in multiset(s) && p[j] in multiset(s);
      assert p[i] in s && p[j] in s;
    }
    hide WeakOrderOn;
    OrderedUnique(p, Sort(s, less), less);
  }

  // Sorting forgets the arrangement it started from.
  lemma SortCanonicalOn<T>(s: seq<T>, t: seq<T>, less: (T, T) -> bool)
    requires WeakOrderOn(Elements(s), less) && multiset(s) == multiset(t) && Separates(s, less)
    ensures Sort(s, less) == Sort(t, less)
  {
    forall y | y in t ensures y in Elements(s) {
      assert y in multiset(s);
    }
    SortOrderedOn(t, less, Elements(s));
    SortMultiset(t, less);
    hide WeakOrderOn, Separates, Ordered;
    AnySortAgrees(s, Sort(t, less), less);
  }

  lemma SortCanonical<T(!new)>(s: seq<T>, t: seq<T>, less: (T, T) -> bool)
    requires WeakOrder(less) && multiset(s) == multiset(t) && Separates(s, less)
    ensures Sort(s, less) == Sort(t, less)
  {
    SortCanonicalOn(s, t, less);
  }

  lemma LessIsWeakOrder()
    ensures WeakOrder(Less)
  {
    forall a, b | Less(a, b) ensures !Less(b, a) {
      LessAsymmetric(a, b);
    }
    forall a, b, c | Less(a, b) ensures Less(a, c) || Less(c, b) {
      LessTotal(a, c);
      if Less(c, a) {
        LessTransitive(c, a, b);
      }
    }
  }

  function Elements<T>(s: seq<T>): set<T> {
    set x | x in s
  }

  function Project<T, K>(s: seq<T>, key: T -> K): (r: seq<K>)
    ensures |r| == |s| && forall i | 0 <= i < |s| :: r[i] == key(s[i])
  {
    seq(|s|, i requires 0 <= i < |s| => key(s[i]))
  }

  // Removing one occurrence of x.
  lemma RemoveAt<T>(s: seq<T>, i: nat)
    requires i < |s|
    ensures multiset(s[..i] + s[i + 1..]) == multiset(s) - multiset{s[i]}
  {
    assert s == s[..i] + [s[i]] + s[i + 1..];
  }

  // Rearranging a sequence rearranges its projection.
  // Arrangements of the same elements still are after taking one away.
  lemma PermutedTail<T>(s: seq<T>, t: seq<T>, i: nat)
    requires s != [] && multiset(s) == multiset(t) && i < |t| && t[i] == s[0]
    ensures multiset(s[1..]) == multiset(t[..i] + t[i + 1..])
  {
    RemoveAt(t, i);
    MultisetTail(s);
  }

  lemma {:induction false} ProjectPermuted<T, K>(s: seq<T>, t: seq<T>, key: T -> K)
    requires multiset(s) == multiset(t)
    ensures multiset(Project(s, key)) == multiset(Project(t, key))
    decreases |s|
  {
    if s == [] {
      assert |multiset(t)| == |t|;
      assert s == t;
    } else {
      assert s[0] in multiset(t);
      var i :| 0 <= i < |t| && t[i] == s[0];
      PermutedTail(s, t, i);
      ProjectPermuted(s[1..], t[..i] + t[i + 1..], key);
      ProjectBoth(s, t, i, key);
    }
  }

  lemma ProjectBoth<T, K>(s: seq<T>, t: seq<T>, i: nat, key: T -> K)
    requires s != [] && i < |t| && t[i] == s[0]
    requires multiset(Project(s[1..], key)) == multiset(Project(t[..i] + t[i + 1..], key))
    ensures multiset(Project(s, key)) == multiset(Project(t, key))
  {
    hide Project;
    ProjectRemove(t, i, key);
    ProjectHead(s, key);
  }

  lemma ProjectHead<T, K>(s: seq<T>, key: T -> K)
    requires s != []
    ensures multiset(Project(s, key)) == multiset(Project(s[1..], key)) + multiset{key(s[0])}
  {
    assert Project(s, key) == [key(s[0])] + Project(s[1..], key);
  }

  lemma ProjectRemove<T, K>(s: seq<T>, i: nat, key: T -> K)
    requires i < |s|
    ensures multiset(Project(s, key)) == multiset(Project(s[..i] + s[i + 1..], key)) + multiset{key(s[i])}
  {
    var q := Project(s, key);
    assert q == q[..i] + [q[i]] + q[i + 1..];
    assert Project(s[..i] + s[i + 1..], key) == q[..i] + q[i + 1..];
  }

  // Distinct keys stay distinct under rearrangement.
  lemma PermutedDistinct<K>(s: seq<K>, t: seq<K>)
    requires multiset(s) == multiset(t) && Distinct(s)
    ensures Distinct(t)
  {
    DistinctMultiset(s);
    MultisetDistinct(t);
  }

  // Strictly increasing strings: sorted, nothing twice.
  ghost predicate Ascending(s: seq<string>) {
    forall i, j | 0 <= i < j < |s| :: Less(s[i], s[j])
  }

  ghost predicate Distinct<T>(s: seq<T>) {
    forall i, j | 0 <= i < j < |s| :: s[i] != s[j]
  }

  // One more element keeps a prefix distinct exactly when it was not there yet;
  // this is what a "seen" set checks.
  lemma SeenStep<T>(s: seq<T>, n: nat)
    requires n < |s|
    ensures Elements(s[..n + 1]) == Elements(s[..n]) + {s[n]}
    ensures Distinct(s[..n]) ==> (Distinct(s[..n + 1]) <==> s[n] !in Elements(s[..n]))
    ensures s[n] in Elements(s[..n]) ==> !Distinct(s)
  {
    var t := s[..n + 1];
    assert t == s[..n] + [s[n]];
    if s[n] in Elements(s[..n]) {
      var i :| 0 <= i < n && s[i] == s[n];
      assert t[i] == t[n];
    } else if Distinct(s[..n]) {
      forall i, j | 0 <= i < j < |t| ensures t[i] != t[j] {
        assert s[..n][i] in s[..n] && t[i] == s[..n][i];
        if j < n {
          assert t[j] == s[..n][j];
        }
      }
    }
  }

  lemma {:induction false} DistinctSize<T>(s: seq<T>)
    requires Distinct(s)
    ensures |Elements(s)| == |s|
  {
    if s != [] {
      DistinctSize(s[1..]);
      assert Elements(s) == Elements(s[1..]) + {s[0]};
    }
  }

  lemma {:induction false} DistinctMultiset<T>(s: seq<T>)
    requires Distinct(s)
    ensures multiset(s) == multiset(Elements(s))
  {
    if s != [] {
      DistinctMultiset(s[1..]);
      assert s == [s[0]] + s[1..];
      assert Elements(s) == Elements(s[1..]) + {s[0]};
    }
  }

  lemma {:induction false} MultisetDistinct<T>(s: seq<T>)
    requires forall x | x in multiset(s) :: multiset(s)[x] == 1
    ensures Distinct(s)
  {
    if s != [] {
      MultisetTail(s);
      MultisetDistinct(s[1..]);
      assert s[0] !in multiset(s[1..]);
    }
  }

  // The sorted listing of a set of strings is unique.
  lemma AscendingUnique(s: seq<string>, t: seq<string>)
    requires Ascending(s) && Ascending(t) && Elements(s) == Elements(t)
    ensures s == t
  {
    AscendingDistinct(s);
    AscendingDistinct(t);
    DistinctMultiset(s);
    DistinctMultiset(t);
    forall i, j | 0 <= i < |s| && 0 <= j < |s| && s[i] != s[j] ensures Less(s[i], s[j]) || Less(s[j], s[i]) {
      LessTotal(s[i], s[j]);
    }
    OrderedUnique(s, t, Less);
  }

  lemma AscendingDistinct(s: seq<string>)
    requires Ascending(s)
    ensures Distinct(s) && Ordered(s, Less)
  {
    forall i, j | 0 <= i < j < |s| ensures s[i] != s[j] && !Less(s[j], s[i]) {
      LessAsymmetric(s[i], s[j]);
    }
  }

  // sort.Strings of distinct strings is ascending.
  lemma SortAscending(s: seq<string>)
    requires Distinct(s)
    ensures Ascending(Sort(s, Less)) && Elements(Sort(s, Less)) == Elements(s)
  {
    var r := Sort(s, Less);
    LessIsWeakOrder();
    SortOrdered(s, Less);
    SortMultiset(s, Less);
    DistinctMultiset(s);
    MultisetDistinct(r);
    forall x ensures x in r <==> x in s {
      SortElements(s, Less, x);
    }
    forall i, j | 0 <= i < j < |r| ensures Less(r[i], r[j]) {
      LessTotal(r[i], r[j]);
    }
  }

  // Sorting by a string key sorts the keys.
  lemma {:induction false} SortByKey<T(!new)>(s: seq<T>, key: T -> string, less: (T, T) -> bool)
    requires forall a, b :: less(a, b) <==> Less(key(a), key(b))
    ensures Project(Sort(s, less), key) == Sort(Project(s, key), Less)
  {
    if s != [] {
      SortByKey(s[1..], key, less);
      assert Project(s, key)[1..] == Project(s[1..], key);
      InsertByKey(s[0], Sort(s[1..], less), key, less);
    }
  }

  lemma {:induction false} InsertByKey<T(!new)>(x: T, s: seq<T>, key: T -> string, less: (T, T) -> bool)
    requires forall a, b :: less(a, b) <==> Less(key(a), key(b))
    ensures Project(Insert(x, s, less), key) == Insert(key(x), Project(s, key), Less)
  {
    if s == [] || !less(s[0], x) {
      assert Project([x] + s, key) == [key(x)] + Project(s, key);
    } else {
      InsertByKey(x, s[1..], key, less);
      assert Project(s, key)[1..] == Project(s[1..], key);
      assert Project([s[0]] + Insert(x, s[1..], less), key) == [key(s[0])] + Project(Insert(x, s[1..], less), key);
    }
  }

  // The sorted listing of a set of strings.
  ghost function Sorted(s: set<string>): (q: seq<string>)
    ensures Ascending(q) && Elements(q) == s
  {
    SortedExists(s);
    var q :| Ascending(q) && Elements(q) == s;
    q
  }

  lemma {:induction false} SortedExists(s: set<string>)
    ensures exists q :: Ascending(q) && Elements(q) == s
  {
    var q := Enumerate(s);
    SortAscending(q);
    assert Ascending(Sort(q, Less)) && Elements(Sort(q, Less)) == s;
  }

  lemma {:induction false} Enumerate<T>(s: set<T>) returns (q: seq<T>)
    ensures Distinct(q) && Elements(q) == s
  {
    q := [];
    if s != {} {
      var x :| x in s;
      var front := Enumerate(s - {x});
      assert x !in Elements(front);
      q := front + [x];
      assert Elements(q) == Elements(front) + {x};
    }
  }

  // Collecting a set in any order and sorting it gives that listing.
  lemma SortIsSorted(q: seq<string>)
    requires Distinct(q)
    ensures Sort(q, Less) == Sorted(Elements(q))
  {
    SortAscending(q);
    AscendingUnique(Sort(q, Less), Sorted(Elements(q)));
  }

  // The elements of a set, in an arbitrary order.
  method AnyOrder<T(==)>(s: set<T>) returns (q: seq<T>)
    ensures Distinct(q) && Elements(q) == s
  {
    q := [];
    var left := s;
    while left != {}
      invariant left <= s && Distinct(q) && Elements(q) == s - left
      decreases left
    {
      var x :| x in left;
      assert x !in Elements(q);
      assert Elements(q + [x]) == Elements(q) + {x};
      q := q + [x];
      left := left - {x};
    }
  }
}
