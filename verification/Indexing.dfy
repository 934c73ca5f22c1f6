// Maps built by inserting the records of a list under their identities, and
// what such an index says when no identity repeats.
module Indexing {
  import opened Sorting

  function Index<T>(s: seq<T>, key: T -> string): map<string, T> {
    if s == [] then map[] else Index(s[..|s| - 1], key)[key(s[|s| - 1]) := s[|s| - 1]]
  }

  lemma IndexStep<T>(s: seq<T>, key: T -> string, n: nat)
    requires n < |s|
    ensures Index(s[..n + 1], key) == Index(s[..n], key)[key(s[n]) := s[n]]
  {
    assert s[..n + 1][..n] == s[..n];
  }

  lemma {:induction false} IndexKeys<T>(s: seq<T>, key: T -> string)
    ensures Index(s, key).Keys == Elements(Project(s, key))
    ensures forall id | id in Index(s, key) :: Index(s, key)[id] in s && key(Index(s, key)[id]) == id
  {
    if s != [] {
      var n := |s| - 1;
      IndexKeys(s[..n], key);
      var p := Project(s, key);
      assert Project(s[..n], key) == p[..n];
      assert p == p[..n] + [p[n]];
      SeenStep(p, n);
      assert p[..n + 1] == p;
    }
  }

  // Without repeated identities every record is found under its own.
  lemma {:induction false} IndexMeaning<T>(s: seq<T>, key: T -> string)
    requires Distinct(Project(s, key))
    ensures Index(s, key).Keys == Elements(Project(s, key))
    ensures forall i | 0 <= i < |s| :: key(s[i]) in Index(s, key) && Index(s, key)[key(s[i])] == s[i]
    ensures forall id | id in Index(s, key) :: Index(s, key)[id] in s && key(Index(s, key)[id]) == id
  {
    IndexKeys(s, key);
    var m, p := Index(s, key), Project(s, key);
    forall i | 0 <= i < |s| ensures p[i] in m && m[p[i]] == s[i] {
      assert p[i] in Elements(p);
      var j :| 0 <= j < |s| && s[j] == m[p[i]];
      assert p[j] == p[i];
    }
  }

  // The order of the list does not matter then.
  lemma IndexPermuted<T>(s: seq<T>, t: seq<T>, key: T -> string)
    requires multiset(s) == multiset(t) && Distinct(Project(s, key))
    ensures Distinct(Project(t, key)) && Index(s, key) == Index(t, key)
  {
    hide Index, Distinct;
    ProjectPermuted(s, t, key);
    PermutedDistinct(Project(s, key), Project(t, key));
    IndexIncluded(s, t, key);
    IndexIncluded(t, s, key);
  }

  lemma IndexIncluded<T>(s: seq<T>, t: seq<T>, key: T -> string)
    requires multiset(s) == multiset(t) && Distinct(Project(t, key))
    ensures forall id | id in Index(s, key) :: id in Index(t, key) && Index(s, key)[id] == Index(t, key)[id]
  {
    hide Index, Distinct;
    IndexKeys(s, key);
    IndexMeaning(t, key);
    var a := Index(s, key);
    forall id | id in a ensures id in Index(t, key) && a[id] == Index(t, key)[id] {
      assert a[id] in multiset(t);
      var j :| 0 <= j < |t| && t[j] == a[id];
      assert key(t[j]) == id;
    }
  }

  // Every listing of a map whose records know their keys gives the map back.
  lemma IndexOfListing<T>(m: map<string, T>, ids: seq<string>, s: seq<T>, key: T -> string)
    requires Distinct(ids) && Elements(ids) == m.Keys && |s| == |ids|
    requires forall i | 0 <= i < |ids| :: ids[i] in m && s[i] == m[ids[i]] && key(s[i]) == ids[i]
    ensures Distinct(Project(s, key)) && Index(s, key) == m
  {
    assert Project(s, key) == ids;
    IndexMeaning(s, key);
    var a := Index(s, key);
    assert a.Keys == m.Keys;
    forall id | id in a ensures a[id] == m[id] {
      assert id in Elements(ids);
      var i :| 0 <= i < |ids| && ids[i] == id;
      assert a[key(s[i])] == s[i];
    }
  }
}
