// The install order on the module records themselves, and why it is this one
// among all topological orders (internal/market/dependencies.go).
module InstallUnfolding {
  import opened InstallOrder
  import opened Sorting
  import opened Text

  // ---- who needs whom ----

  // b is a, or a dependency of a, directly or through others.
  ghost predicate Needs(g: Graph, a: string, b: string) {
    exists p :: Leads(g, p, a, b)
  }

  ghost predicate Leads(g: Graph, p: seq<string>, a: string, b: string) {
    p != [] && p[0] == a && p[|p| - 1] == b && Path(g, p)
  }

  lemma NeedsItself(g: Graph, a: string)
    ensures Needs(g, a, a)
  {
    assert Leads(g, [a], a, a);
  }

  lemma NeedsThrough(g: Graph, a: string, d: string, b: string)
    requires Edge(g, a, d) && Needs(g, d, b)
    ensures Needs(g, a, b)
  {
    hide Edge;
    var p :| Leads(g, p, d, b);
    var q := [a] + p;
    forall i | 0 <= i < |q| - 1 ensures Edge(g, q[i], q[i + 1]) {
      if i > 0 {
        assert Edge(g, p[i - 1], p[i]);
      }
    }
    assert Leads(g, q, a, b);
  }

  // What is needed by something in a topological order is in it too.
  lemma NeededIsListed(g: Graph, order: seq<string>, a: string, b: string)
    requires Topological(g, order) && a in order && Needs(g, a, b)
    ensures b in order
  {
    hide Topological, Path;
    var p :| Leads(g, p, a, b);
    var i :| 0 <= i < |order| && order[i] == a;
    if |p| >= 2 {
      PathDescends(g, order, p, i);
    }
  }

  // ---- the walk without memory ----

  // Dependencies rank below what depends on them.
  ghost predicate Ranks(g: Graph, rank: map<string, nat>) {
    forall n | n in g :: n in rank && forall d | d in Deps(g, n) :: d in rank && rank[d] < rank[n]
  }

  // Everything a module needs, then the module, as often as it is needed.
  ghost function Unfold(g: Graph, rank: map<string, nat>, name: string): seq<string>
    requires Closed(g) && Ranks(g, rank) && name in g
    decreases rank[name], 1, 0
  {
    UnfoldAll(g, rank, Deps(g, name), rank[name]) + [name]
  }

  ghost function UnfoldAll(g: Graph, rank: map<string, nat>, names: seq<string>, top: nat): seq<string>
    requires Closed(g) && Ranks(g, rank) && forall n | n in names :: n in g && rank[n] < top
    decreases top, 0, |names|
  {
    if names == [] then []
    else
      assert names[|names| - 1] in names;
      UnfoldAll(g, rank, names[..|names| - 1], top) + Unfold(g, rank, names[|names| - 1])
  }

  // Only the first of equal elements stays.
  function FirstOnly(s: seq<string>): seq<string> {
    if s == [] then []
    else
      var front := FirstOnly(s[..|s| - 1]);
      if s[|s| - 1] in front then front else front + [s[|s| - 1]]
  }

  lemma {:induction false} FirstOnlyElements(s: seq<string>, x: string)
    ensures x in FirstOnly(s) <==> x in s
  {
    if s != [] {
      FirstOnlyElements(s[..|s| - 1], x);
      assert s == s[..|s| - 1] + [s[|s| - 1]];
    }
  }

  lemma {:induction false} FirstOnlyFixed(s: seq<string>)
    requires Distinct(s)
    ensures FirstOnly(s) == s
  {
    if s != [] {
      var front := s[..|s| - 1];
      FirstOnlyFixed(front);
      assert s == front + [s[|s| - 1]];
      assert s[|s| - 1] !in front;
    }
  }

  // What was reduced before can be reduced again with what follows.
  lemma {:induction false} FirstOnlyAppend(s: seq<string>, t: seq<string>)
    ensures FirstOnly(FirstOnly(s) + t) == FirstOnly(s + t)
    decreases |t|
  {
    if t == [] {
      FirstOnlyDistinct(s);
      FirstOnlyFixed(FirstOnly(s));
      assert FirstOnly(s) + t == FirstOnly(s) && s + t == s;
    } else {
      var front := t[..|t| - 1];
      FirstOnlyAppend(s, front);
      assert (s + t)[..|s + t| - 1] == s + front;
      assert (FirstOnly(s) + t)[..|FirstOnly(s) + t| - 1] == FirstOnly(s) + front;
    }
  }

  lemma {:induction false} FirstOnlyDistinct(s: seq<string>)
    ensures Distinct(FirstOnly(s))
  {
    if s != [] {
      FirstOnlyDistinct(s[..|s| - 1]);
    }
  }

  lemma {:induction false} NothingNew(s: seq<string>, t: seq<string>)
    requires Distinct(s) && forall x | x in t :: x in s
    ensures FirstOnly(s + t) == s
    decreases |t|
  {
    if t == [] {
      FirstOnlyFixed(s);
      assert s + t == s;
    } else {
      assert t[|t| - 1] in t;
      NothingNew(s, t[..|t| - 1]);
      assert (s + t)[..|s + t| - 1] == s + t[..|t| - 1];
    }
  }

  // The unfolding of a module holds what it needs, of no higher rank.
  lemma {:induction false} UnfoldNeeds(g: Graph, rank: map<string, nat>, name: string, x: string)
    requires Closed(g) && Ranks(g, rank) && name in g && x in Unfold(g, rank, name)
    ensures Needs(g, name, x) && x in rank && rank[x] <= rank[name]
    decreases rank[name], 1, 0
  {
    hide Needs, Deps;
    if x == name {
      NeedsItself(g, name);
    } else {
      var d := UnfoldAllNeeds(g, rank, Deps(g, name), rank[name], x);
      NeedsThrough(g, name, d, x);
    }
  }

  lemma {:induction false} UnfoldAllNeeds(g: Graph, rank: map<string, nat>, names: seq<string>, top: nat, x: string) returns (d: string)
    requires Closed(g) && Ranks(g, rank) && (forall n | n in names :: n in g && rank[n] < top) && x in UnfoldAll(g, rank, names, top)
    ensures d in names && Needs(g, d, x) && x in rank && rank[x] < top
    decreases top, 0, |names|
  {
    hide Needs, Deps, Closed, Ranks;
    var last := names[|names| - 1];
    assert last in names;
    if x in Unfold(g, rank, last) {
      d := last;
      UnfoldNeeds(g, rank, last, x);
    } else {
      d := UnfoldAllNeeds(g, rank, names[..|names| - 1], top, x);
    }
  }

  // ---- remembering visits only drops repetitions ----

  lemma SoundOrder(g: Graph, w: Walk)
    requires Sound(g, w)
    ensures Topological(g, w.order) && Distinct(w.order) && forall n :: n in w.done <==> n in w.order
  {
    hide Deps;
    assert forall n :: n in Elements(w.order) <==> n in w.order;
  }

  lemma AddLast(s: seq<string>, t: seq<string>, name: string)
    requires name !in FirstOnly(s + t)
    ensures FirstOnly(s + (t + [name])) == FirstOnly(s + t) + [name]
  {
    assert s + (t + [name]) == (s + t) + [name];
    assert (s + t + [name])[..|s + t|] == s + t;
  }

  lemma AddMore(s: seq<string>, t: seq<string>, u: seq<string>)
    ensures FirstOnly(FirstOnly(s + t) + u) == FirstOnly(s + (t + u))
  {
    hide FirstOnly;
    FirstOnlyAppend(s + t, u);
    assert (s + t) + u == s + (t + u);
  }

  lemma NothingLeft(g: Graph, rank: map<string, nat>, name: string, order: seq<string>)
    requires Closed(g) && Ranks(g, rank) && name in g && Topological(g, order) && Distinct(order) && name in order
    ensures FirstOnly(order + Unfold(g, rank, name)) == order
  {
    hide Deps, Needs, Topological, Distinct, FirstOnly, Closed, Ranks;
    var t := Unfold(g, rank, name);
    forall x | x in t ensures x in order {
      UnfoldNeeds(g, rank, name, x);
      NeededIsListed(g, order, name, x);
    }
    NothingNew(order, t);
  }

  lemma {:induction false} VisitDropsRepetitions(g: Graph, rank: map<string, nat>, name: string, w: Walk)
    requires Closed(g) && Ranks(g, rank) && name in g && Sound(g, w)
    ensures var r := Visit(g, name, w); r.Some? ==> r.value.order == FirstOnly(w.order + Unfold(g, rank, name))
    decreases Unvisited(g, w), 1, 0
  {
    hide Sound, Deps, Topological, Distinct, FirstOnly;
    SoundOrder(g, w);
    if name in w.active {
    } else if name in w.done {
      NothingLeft(g, rank, name, w.order);
    } else {
      var inside, deps := w.(active := w.active + [name]), Deps(g, name);
      EnterShrinks(g, w, name);
      EnterSound(g, w, name);
      assert forall d | d in deps :: d in g;
      VisitAllDropsRepetitions(g, rank, deps, rank[name], inside);
      LastIsNew(g, rank, name, w);
      AddLast(w.order, UnfoldAll(g, rank, deps, rank[name]), name);
    }
  }

  lemma LastIsNew(g: Graph, rank: map<string, nat>, name: string, w: Walk)
    requires Closed(g) && Ranks(g, rank) && name in g && name !in w.order
    ensures name !in FirstOnly(w.order + UnfoldAll(g, rank, Deps(g, name), rank[name]))
  {
    hide Deps, Needs;
    var t := UnfoldAll(g, rank, Deps(g, name), rank[name]);
    FirstOnlyElements(w.order + t, name);
    if name in t {
      var _ := UnfoldAllNeeds(g, rank, Deps(g, name), rank[name], name);
    }
  }

  lemma UnfoldSnoc(g: Graph, rank: map<string, nat>, names: seq<string>, top: nat)
    requires Closed(g) && Ranks(g, rank) && names != [] && forall n | n in names :: n in g && rank[n] < top
    ensures names[|names| - 1] in names
    ensures UnfoldAll(g, rank, names, top) == UnfoldAll(g, rank, names[..|names| - 1], top) + Unfold(g, rank, names[|names| - 1])
    ensures UnfoldAll(g, rank, [], top) == []
  {
  }

  lemma {:induction false} VisitAllDropsRepetitions(g: Graph, rank: map<string, nat>, names: seq<string>, top: nat, w: Walk)
    requires Closed(g) && Ranks(g, rank) && (forall n | n in names :: n in g && rank[n] < top) && Sound(g, w)
    ensures var r := VisitAll(g, names, w); r.Some? ==> r.value.order == FirstOnly(w.order + UnfoldAll(g, rank, names, top))
    decreases Unvisited(g, w), 2, |names|
  {
    SoundOrder(g, w);
    if names == [] {
      hide Sound, Topological, Distinct, FirstOnly, Closed, Ranks;
      FirstOnlyFixed(w.order);
      assert w.order + [] == w.order;
    } else {
      hide Sound, Deps, Closed, Ranks, Topological, Distinct, FirstOnly, VisitAll, UnfoldAll, Unfold, Visit;
      var front, last := names[..|names| - 1], names[|names| - 1];
      assert names == front + [last];
      VisitAllSnoc(g, names, w);
      UnfoldSnoc(g, rank, names, top);
      VisitAllDropsRepetitions(g, rank, front, top, w);
      var f := VisitAll(g, front, w);
      if f.Some? {
        VisitAllSound(g, front, w);
        FewerUnvisited(g, w, f.value);
        VisitDropsRepetitions(g, rank, last, f.value);
        AddMore(w.order, UnfoldAll(g, rank, front, top), Unfold(g, rank, last));
      }
    }
  }

  lemma {:induction false} RankedPath(g: Graph, rank: map<string, nat>, p: seq<string>)
    requires Ranks(g, rank) && |p| >= 2 && Path(g, p)
    ensures p[0] in rank && p[|p| - 1] in rank && rank[p[|p| - 1]] < rank[p[0]]
  {
    hide Deps;
    assert Edge(g, p[|p| - 2], p[|p| - 1]);
    if |p| > 2 {
      var front := p[..|p| - 1];
      forall i | 0 <= i < |front| - 1 ensures Edge(g, front[i], front[i + 1]) {
        assert Edge(g, p[i], p[i + 1]);
      }
      RankedPath(g, rank, front);
    }
  }

  // What the walk without memory lists: modules by name, everything a module
  // needs before the module.
  ghost function Listing(modules: seq<ModuleDependency>, rank: map<string, nat>, top: nat): seq<string>
    requires WellFormed(modules) && Ranks(GraphOf(modules), rank) && forall n | n in GraphOf(modules) :: rank[n] < top
  {
    GraphKeys(modules);
    SortSame(Names(modules));
    UnfoldAll(GraphOf(modules), rank, Sort(Names(modules), Less), top)
  }

  // The install order is that listing with repetitions dropped.
  lemma ResolveIsUnfolding(modules: seq<ModuleDependency>, rank: map<string, nat>, top: nat)
    requires WellFormed(modules) && Ranks(GraphOf(modules), rank) && forall n | n in GraphOf(modules) :: rank[n] < top
    ensures Resolve(modules) == Order(FirstOnly(Listing(modules, rank, top)))
  {
    hide Topological, Deps, Path, Closed, Ranks, Sort, Sound;
    var g, names, w := GraphOf(modules), Sort(Names(modules), Less), Walk([], {}, []);
    GraphKeys(modules);
    SortSame(Names(modules));
    ResolveIsTopologicalSort(modules);
    if HasCycle(g) {
      var p :| IsCycle(g, p);
      RankedPath(g, rank, p);
    }
    EmptyIsSound(g, w);
    VisitAllDropsRepetitions(g, rank, names, top, w);
    assert [] + UnfoldAll(g, rank, names, top) == UnfoldAll(g, rank, names, top);
  }

  // Every resolved input has such ranks: the positions in its order.
  lemma OrderRanks(modules: seq<ModuleDependency>) returns (rank: map<string, nat>)
    requires Resolve(modules).Order?
    ensures Ranks(GraphOf(modules), rank) && forall n | n in GraphOf(modules) :: rank[n] < |Resolve(modules).names|
  {
    hide Deps, HasCycle;
    var g, order := GraphOf(modules), Resolve(modules).names;
    ResolveIsTopologicalSort(modules);
    rank := map n | n in g :: Position(order, n);
    forall n | n in g ensures n in order {
      assert n in Elements(order);
    }
    forall n, d | n in g && d in Deps(g, n) ensures d in g && rank[d] < rank[n] {
      var i :| 0 <= i < |order| && order[i] == n;
      PositionOf(order, i);
      assert d in order[..i];
      var k :| 0 <= k < i && order[k] == d;
      PositionOf(order, k);
    }
    forall n | n in g ensures rank[n] < |order| {
      var i :| 0 <= i < |order| && order[i] == n;
      PositionOf(order, i);
    }
  }

  function Position(s: seq<string>, x: string): nat {
    if s == [] || s[0] == x then 0 else 1 + Position(s[1..], x)
  }

  lemma {:induction false} PositionOf(s: seq<string>, i: nat)
    requires Distinct(s) && i < |s|
    ensures Position(s, s[i]) == i
  {
    if i > 0 {
      assert s[0] != s[i];
      PositionOf(s[1..], i - 1);
    }
  }

  // ---- on the records ----

  // The dependencies a module is walked through: as written in name order,
  // then trimmed.
  lemma DepsInNameOrder(g: Graph, name: string) returns (p: seq<string>)
    requires name in g
    ensures multiset(p) == multiset(g[name]) && Ordered(p, Less)
    ensures |Deps(g, name)| == |p| && forall i | 0 <= i < |p| :: Deps(g, name)[i] == TrimSpace(p[i])
  {
    hide Less, TrimSpace;
    p := Sort(g[name], Less);
    SortMultiset(g[name], Less);
    LessIsWeakOrder();
    SortOrdered(g[name], Less);
  }

  ghost predicate Declared(modules: seq<ModuleDependency>, name: string) {
    exists m | m in modules :: TrimSpace(m.name) == name
  }

  lemma NamesDeclared(modules: seq<ModuleDependency>, name: string)
    ensures name in GraphOf(modules) <==> Declared(modules, name)
  {
    hide TrimSpace;
    GraphKeys(modules);
    var names := Names(modules);
    assert name in GraphOf(modules) <==> name in Elements(names);
    if name in names {
      var i :| 0 <= i < |names| && names[i] == name;
      assert modules[i] in modules;
    }
    if m :| m in modules && TrimSpace(m.name) == name {
      var i :| 0 <= i < |modules| && modules[i] == m;
      assert names[i] == name;
    }
  }

  lemma RecordDeps(modules: seq<ModuleDependency>, m: ModuleDependency)
    requires Distinct(Names(modules)) && m in modules
    ensures TrimSpace(m.name) in GraphOf(modules)
    ensures forall d :: d in Deps(GraphOf(modules), TrimSpace(m.name)) <==> exists x | x in m.dependsOn :: TrimSpace(x) == d
  {
    hide TrimSpace, Distinct, Deps;
    GraphMeaning(modules);
    var i :| 0 <= i < |modules| && modules[i] == m;
    var g := GraphOf(modules);
    assert NameKey(modules[i]) in g && g[NameKey(m)] == m.dependsOn;
    DepsAreTrimmed(g, NameKey(m));
    forall d ensures d in Deps(g, NameKey(m)) <==> exists x | x in m.dependsOn :: TrimSpace(x) == d {
      if d in Deps(g, NameKey(m)) {
        var k :| 0 <= k < |m.dependsOn| && TrimSpace(m.dependsOn[k]) == d;
        assert m.dependsOn[k] in m.dependsOn;
      }
      if x :| x in m.dependsOn && TrimSpace(x) == d {
        var k :| 0 <= k < |m.dependsOn| && m.dependsOn[k] == x;
      }
    }
  }

  // An order lists exactly the declared modules, each once, and each after
  // every module its record depends on.
  lemma InstallOrderMeans(modules: seq<ModuleDependency>)
    requires Resolve(modules).Order?
    ensures var names := Resolve(modules).names;
      && Distinct(names) && (forall n :: n in names <==> Declared(modules, n))
      && forall m, x, i | m in modules && x in m.dependsOn && 0 <= i < |names| && names[i] == TrimSpace(m.name) :: TrimSpace(x) in names[..i]
  {
    hide Deps, HasCycle, TrimSpace, Declared;
    var g, names := GraphOf(modules), Resolve(modules).names;
    ResolveIsTopologicalSort(modules);
    forall n ensures n in names <==> Declared(modules, n) {
      NamesDeclared(modules, n);
      assert n in names <==> n in Elements(names);
    }
    forall m, x, i | m in modules && x in m.dependsOn && 0 <= i < |names| && names[i] == TrimSpace(m.name) ensures TrimSpace(x) in names[..i] {
      NamedDistinct(modules);
      RecordDeps(modules, m);
      assert TrimSpace(x) in Deps(g, names[i]);
    }
  }

  // Refused as malformed are exactly blank names, names declared twice and
  // dependencies on what is not declared.
  lemma MalformedExactly(modules: seq<ModuleDependency>)
    ensures !Resolve(modules).Malformed? <==>
      && (forall m | m in modules :: TrimSpace(m.name) != "")
      && (forall i, j | 0 <= i < j < |modules| :: TrimSpace(modules[i].name) != TrimSpace(modules[j].name))
      && (forall m, x | m in modules && x in m.dependsOn :: Declared(modules, TrimSpace(x)))
  {
    hide TrimSpace, Deps, Declared;
    var g, names := GraphOf(modules), Names(modules);
    assert !Resolve(modules).Malformed? <==> WellFormed(modules);
    assert (forall i | 0 <= i < |modules| :: names[i] != "") <==> forall m | m in modules :: TrimSpace(m.name) != "";
    assert Distinct(names) <==> forall i, j | 0 <= i < j < |modules| :: TrimSpace(modules[i].name) != TrimSpace(modules[j].name);
    if Distinct(names) {
      ClosedMeans(modules);
    }
  }

  lemma ClosedMeans(modules: seq<ModuleDependency>)
    requires Distinct(Names(modules))
    ensures Closed(GraphOf(modules)) <==> forall m, x | m in modules && x in m.dependsOn :: Declared(modules, TrimSpace(x))
  {
    hide TrimSpace, Deps, Declared, Distinct;
    var g := GraphOf(modules);
    if Closed(g) {
      forall m, x | m in modules && x in m.dependsOn ensures Declared(modules, TrimSpace(x)) {
        RecordDeps(modules, m);
        assert TrimSpace(x) in Deps(g, TrimSpace(m.name));
        NamesDeclared(modules, TrimSpace(x));
      }
    }
    if forall m, x | m in modules && x in m.dependsOn :: Declared(modules, TrimSpace(x)) {
      forall n, d | n in g && d in Deps(g, n) ensures d in g {
        NamesDeclared(modules, n);
        var m := Declaring(modules, n);
        RecordDeps(modules, m);
        var x :| x in m.dependsOn && TrimSpace(x) == d;
        NamesDeclared(modules, d);
      }
    }
  }

  lemma Declaring(modules: seq<ModuleDependency>, n: string) returns (m: ModuleDependency)
    requires Declared(modules, n)
    ensures m in modules && TrimSpace(m.name) == n
  {
    m :| m in modules && TrimSpace(m.name) == n;
  }
}
