// Install order of market modules: a three-colour depth-first topological sort
// (internal/market/dependencies.go).
module InstallOrder {
  import opened Options
  import opened Sorting
  import opened Text

  datatype ModuleDependency = ModuleDependency(name: string, dependsOn: seq<string>)

  // Trimmed module name to the dependency list as written.
  type Graph = map<string, seq<string>>

  // Malformed stands for a missing name, a duplicate or an unknown dependency.
  datatype Resolution = Order(names: seq<string>) | Malformed | Cyclic

  // Dependencies in the order they are visited: sorted as written, then trimmed.
  function Deps(g: Graph, name: string): seq<string>
    requires name in g
  {
    Project(Sort(g[name], Less), TrimSpace)
  }

  ghost predicate Closed(g: Graph) {
    forall n | n in g :: forall d | d in Deps(g, n) :: d in g
  }

  // ---- the walk ----

  // active is the chain of modules being visited, done those finished.
  datatype Walk = Walk(active: seq<string>, done: set<string>, order: seq<string>)

  ghost function Unvisited(g: Graph, w: Walk): nat {
    |g.Keys - Elements(w.active) - w.done|
  }

  ghost predicate Extends(w: Walk, w': Walk) {
    w'.active == w.active && w.done <= w'.done
  }

  lemma FewerUnvisited(g: Graph, w: Walk, w': Walk)
    requires Extends(w, w')
    ensures Unvisited(g, w') <= Unvisited(g, w)
  {
    SubsetSize(g.Keys - Elements(w'.active) - w'.done, g.Keys - Elements(w.active) - w.done);
  }

  lemma SubsetSize<T>(a: set<T>, b: set<T>)
    requires a <= b
    ensures |a| <= |b|
  {
    assert |b - a| == |b| - |a|;
  }

  lemma EnterShrinks(g: Graph, w: Walk, name: string)
    requires name in g && name !in w.active && name !in w.done
    ensures Unvisited(g, w.(active := w.active + [name])) < Unvisited(g, w)
  {
    var a, b := g.Keys - Elements(w.active) - w.done, g.Keys - Elements(w.active + [name]) - w.done;
    assert Elements(w.active + [name]) == Elements(w.active) + {name};
    assert b == a - {name};
  }

  ghost function Visit(g: Graph, name: string, w: Walk): (r: Option<Walk>)
    requires Closed(g) && name in g
    ensures r.Some? ==> Extends(w, r.value)
    decreases Unvisited(g, w), 1, 0
  {
    if name in w.active then None
    else if name in w.done then Some(w)
    else
      var inside := w.(active := w.active + [name]);
      EnterShrinks(g, w, name);
      match VisitAll(g, Deps(g, name), inside)
      case None => None
      case Some(w') => Some(Walk(w.active, w'.done + {name}, w'.order + [name]))
  }

  ghost function VisitAll(g: Graph, names: seq<string>, w: Walk): (r: Option<Walk>)
    requires Closed(g) && forall n | n in names :: n in g
    ensures r.Some? ==> Extends(w, r.value)
    decreases Unvisited(g, w), 2, |names|
  {
    if names == [] then Some(w)
    else match VisitAll(g, names[..|names| - 1], w)
      case None => None
      case Some(w') => FewerUnvisited(g, w, w'); Visit(g, names[|names| - 1], w')
  }

  // ---- what the walk keeps ----

  // Everything in order has its dependencies earlier, nothing is there twice.
  ghost predicate Topological(g: Graph, order: seq<string>) {
    && Distinct(order) && (forall i | 0 <= i < |order| :: order[i] in g)
    && forall i | 0 <= i < |order| :: forall d | d in Deps(g, order[i]) :: d in order[..i]
  }

  ghost predicate Sound(g: Graph, w: Walk) {
    Topological(g, w.order) && Elements(w.order) == w.done && Elements(w.active) !! w.done
  }

  lemma {:induction false} VisitSound(g: Graph, name: string, w: Walk)
    requires Closed(g) && name in g && Sound(g, w)
    ensures var r := Visit(g, name, w); r.Some? ==> Sound(g, r.value) && name in r.value.done
    decreases Unvisited(g, w), 1, 0
  {
    hide Topological, Sound, Deps;
    if name !in w.active && name !in w.done {
      var inside := w.(active := w.active + [name]);
      EnterShrinks(g, w, name);
      EnterSound(g, w, name);
      assert forall d | d in Deps(g, name) :: d in g;
      VisitAllSound(g, Deps(g, name), inside);
      if VisitAll(g, Deps(g, name), inside).Some? {
        LeaveSound(g, w, VisitAll(g, Deps(g, name), inside).value, name);
      }
    }
  }

  lemma EnterSound(g: Graph, w: Walk, name: string)
    requires Sound(g, w) && name !in w.done
    ensures Sound(g, w.(active := w.active + [name]))
  {
    hide Topological;
    assert Elements(w.active + [name]) == Elements(w.active) + {name};
  }

  lemma LeaveSound(g: Graph, w: Walk, w': Walk, name: string)
    requires name in g && name !in w.active && Sound(g, w')
    requires w'.active == w.active + [name] && forall d | d in Deps(g, name) :: d in w'.done
    ensures Sound(g, Walk(w.active, w'.done + {name}, w'.order + [name]))
  {
    hide Deps;
    var order := w'.order + [name];
    assert name in Elements(w'.active) && Elements(w.active) <= Elements(w'.active);
    assert Elements(order) == w'.done + {name};
    assert Distinct(order);
    forall i | 0 <= i < |order| ensures forall d | d in Deps(g, order[i]) :: d in order[..i] {
      if i < |w'.order| {
        assert order[..i] == w'.order[..i];
      } else {
        assert order[..i] == w'.order;
        assert forall d | d in w'.done :: d in Elements(w'.order);
      }
    }
  }

  lemma {:induction false} VisitAllSound(g: Graph, names: seq<string>, w: Walk)
    requires Closed(g) && (forall n | n in names :: n in g) && Sound(g, w)
    ensures var r := VisitAll(g, names, w); r.Some? ==> Sound(g, r.value) && forall n | n in names :: n in r.value.done
    decreases Unvisited(g, w), 2, |names|
  {
    hide Sound, Deps, Closed;
    if names != [] {
      var front, last := names[..|names| - 1], names[|names| - 1];
      assert names == front + [last];
      VisitAllSound(g, front, w);
      if VisitAll(g, front, w).Some? {
        FewerUnvisited(g, w, VisitAll(g, front, w).value);
        VisitSound(g, last, VisitAll(g, front, w).value);
      }
    }
  }

  // ---- cycles ----

  ghost predicate Edge(g: Graph, a: string, b: string) {
    a in g && b in Deps(g, a)
  }

  ghost predicate Path(g: Graph, p: seq<string>) {
    forall i | 0 <= i < |p| - 1 :: Edge(g, p[i], p[i + 1])
  }

  ghost predicate IsCycle(g: Graph, p: seq<string>) {
    |p| >= 2 && p[0] == p[|p| - 1] && Path(g, p)
  }

  ghost predicate HasCycle(g: Graph) {
    exists p :: IsCycle(g, p)
  }

  // The walk fails only on a real cycle: the active chain, closed by name.
  lemma {:induction false} VisitFailsOnCycle(g: Graph, name: string, w: Walk)
    requires Closed(g) && name in g && Path(g, w.active + [name])
    ensures Visit(g, name, w).None? ==> HasCycle(g)
    decreases Unvisited(g, w), 1, 0
  {
    hide Deps, Path, Edge;
    if name in w.active {
      var k :| 0 <= k < |w.active| && w.active[k] == name;
      SuffixIsCycle(g, w.active, k, name);
    } else if name !in w.done {
      var inside := w.(active := w.active + [name]);
      EnterShrinks(g, w, name);
      assert forall d | d in Deps(g, name) :: d in g;
      forall d | d in Deps(g, name) ensures Path(g, inside.active + [d]) {
        PathSnoc(g, w.active + [name], d);
      }
      VisitAllFailsOnCycle(g, Deps(g, name), inside);
    }
  }

  lemma SuffixIsCycle(g: Graph, active: seq<string>, k: nat, name: string)
    requires k < |active| && active[k] == name && Path(g, active + [name])
    ensures HasCycle(g)
  {
    var p := active[k..] + [name];
    forall i | 0 <= i < |p| - 1 ensures Edge(g, p[i], p[i + 1]) {
      assert Edge(g, (active + [name])[k + i], (active + [name])[k + i + 1]);
    }
    assert IsCycle(g, p);
  }

  lemma PathSnoc(g: Graph, p: seq<string>, d: string)
    requires p != [] && Path(g, p) && Edge(g, p[|p| - 1], d)
    ensures Path(g, p + [d])
  {
    var q := p + [d];
    forall i | 0 <= i < |q| - 1 ensures Edge(g, q[i], q[i + 1]) {
      if i < |p| - 1 {
        assert Edge(g, p[i], p[i + 1]);
      }
    }
  }

  lemma {:induction false} VisitAllFailsOnCycle(g: Graph, names: seq<string>, w: Walk)
    requires Closed(g) && (forall n | n in names :: n in g && Path(g, w.active + [n]))
    ensures VisitAll(g, names, w).None? ==> HasCycle(g)
    decreases Unvisited(g, w), 2, |names|
  {
    hide Deps, Path, HasCycle, Closed;
    if names != [] {
      var front, last := names[..|names| - 1], names[|names| - 1];
      assert names == front + [last];
      VisitAllFailsOnCycle(g, front, w);
      if VisitAll(g, front, w).Some? {
        FewerUnvisited(g, w, VisitAll(g, front, w).value);
        VisitFailsOnCycle(g, last, VisitAll(g, front, w).value);
      }
    }
  }

  // Along a path, positions in a topological order only go down.
  lemma {:induction false} PathDescends(g: Graph, order: seq<string>, p: seq<string>, i: nat)
    requires Topological(g, order) && Path(g, p) && i < |order| && |p| >= 2 && p[0] == order[i]
    ensures p[|p| - 1] in order[..i]
    decreases |p|
  {
    hide Deps;
    assert Edge(g, p[0], p[1]);
    assert p[1] in order[..i];
    if |p| > 2 {
      var j :| 0 <= j < i && order[j] == p[1];
      forall k | 0 <= k < |p[1..]| - 1 ensures Edge(g, p[1..][k], p[1..][k + 1]) {
        assert Edge(g, p[k + 1], p[k + 2]);
      }
      PathDescends(g, order, p[1..], j);
      assert order[..j] <= order[..i];
    }
  }

  // A topological order of all modules leaves no room for a cycle.
  lemma TopologicalMeansAcyclic(g: Graph, order: seq<string>)
    requires Topological(g, order) && Elements(order) == g.Keys
    ensures !HasCycle(g)
  {
    hide Deps, Topological;
    forall p ensures !IsCycle(g, p) {
      if IsCycle(g, p) {
        assert Edge(g, p[0], p[1]);
        assert p[0] in Elements(order);
        var i :| 0 <= i < |order| && order[i] == p[0];
        PathDescends(g, order, p, i);
        TopologicalIsDistinct(g, order);
        assert false;
      }
    }
  }

  lemma TopologicalIsDistinct(g: Graph, order: seq<string>)
    requires Topological(g, order)
    ensures forall i | 0 <= i < |order| :: order[i] !in order[..i]
  {
  }

  // ---- the resolver ----

  function NameKey(m: ModuleDependency): string {
    TrimSpace(m.name)
  }

  function Names(modules: seq<ModuleDependency>): seq<string> {
    Project(modules, NameKey)
  }

  function GraphOf(modules: seq<ModuleDependency>): Graph {
    if modules == [] then map[]
    else
      var last := modules[|modules| - 1];
      GraphOf(modules[..|modules| - 1])[NameKey(last) := last.dependsOn]
  }

  ghost predicate Named(modules: seq<ModuleDependency>) {
    Distinct(Names(modules)) && forall i | 0 <= i < |modules| :: Names(modules)[i] != ""
  }

  ghost predicate WellFormed(modules: seq<ModuleDependency>) {
    Named(modules) && Closed(GraphOf(modules))
  }

  ghost function Resolve(modules: seq<ModuleDependency>): Resolution {
    if !WellFormed(modules) then Malformed
    else
      GraphKeys(modules);
      SortSame(Names(modules));
      match VisitAll(GraphOf(modules), Sort(Names(modules), Less), Walk([], {}, []))
      case None => Cyclic
      case Some(w) => Order(w.order)
  }

  lemma {:induction false} GraphKeys(modules: seq<ModuleDependency>)
    ensures GraphOf(modules).Keys == Elements(Names(modules))
  {
    if modules != [] {
      var front := modules[..|modules| - 1];
      GraphKeys(front);
      assert Names(modules) == Names(front) + [NameKey(modules[|modules| - 1])];
    }
  }

  lemma SortSame(s: seq<string>)
    ensures Elements(Sort(s, Less)) == Elements(s)
  {
    forall x ensures x in Sort(s, Less) <==> x in s {
      SortElements(s, Less, x);
    }
  }

  // On well-formed input the resolver succeeds exactly when the dependency
  // graph has no cycle, and then lists every module once, after everything
  // it depends on.
  lemma ResolveIsTopologicalSort(modules: seq<ModuleDependency>)
    requires WellFormed(modules)
    ensures var g, r := GraphOf(modules), Resolve(modules);
      && !r.Malformed? && (r.Cyclic? <==> HasCycle(g))
      && (r.Order? ==> Topological(g, r.names) && Elements(r.names) == g.Keys)
  {
    hide Topological, HasCycle, Deps, Path;
    var g, names, w := GraphOf(modules), Sort(Names(modules), Less), Walk([], {}, []);
    GraphKeys(modules);
    SortSame(Names(modules));
    EmptyIsSound(g, w);
    VisitAllSound(g, names, w);
    VisitAllFailsOnCycle(g, names, w);
    var r := VisitAll(g, names, w);
    if r.Some? {
      OrderWithinGraph(g, r.value.order);
      TopologicalMeansAcyclic(g, r.value.order);
    }
  }

  lemma EmptyIsSound(g: Graph, w: Walk)
    requires w == Walk([], {}, [])
    ensures Sound(g, w) && forall n :: Path(g, w.active + [n])
  {
  }

  lemma OrderWithinGraph(g: Graph, order: seq<string>)
    requires Topological(g, order)
    ensures Elements(order) <= g.Keys
  {
  }

  // ---- nothing depends on how the input is arranged ----

  ghost predicate SameUpToOrder(g: Graph, g': Graph) {
    g.Keys == g'.Keys && forall n | n in g :: multiset(g[n]) == multiset(g'[n])
  }

  lemma SameDeps(g: Graph, g': Graph, name: string)
    requires SameUpToOrder(g, g') && name in g
    ensures Deps(g, name) == Deps(g', name)
  {
    LessIsWeakOrder();
    forall i, j | 0 <= i < |g[name]| && 0 <= j < |g[name]| && g[name][i] != g[name][j]
      ensures Less(g[name][i], g[name][j]) || Less(g[name][j], g[name][i])
    {
      LessTotal(g[name][i], g[name][j]);
    }
    SortCanonical(g[name], g'[name], Less);
  }

  lemma {:induction false} SameVisit(g: Graph, g': Graph, name: string, w: Walk)
    requires SameUpToOrder(g, g') && Closed(g) && Closed(g') && name in g
    ensures Visit(g, name, w) == Visit(g', name, w)
    decreases Unvisited(g, w), 1, 0
  {
    hide Deps, SameUpToOrder;
    if name !in w.active && name !in w.done {
      EnterShrinks(g, w, name);
      SameDeps(g, g', name);
      assert g.Keys == g'.Keys by { SameKeys(g, g'); }
      SameVisitAll(g, g', Deps(g, name), w.(active := w.active + [name]));
    } else {
      SameKeys(g, g');
    }
  }

  lemma SameKeys(g: Graph, g': Graph)
    requires SameUpToOrder(g, g')
    ensures g.Keys == g'.Keys
  {
  }

  lemma {:induction false} SameVisitAll(g: Graph, g': Graph, names: seq<string>, w: Walk)
    requires SameUpToOrder(g, g') && Closed(g) && Closed(g') && forall n | n in names :: n in g
    ensures forall n | n in names :: n in g'
    ensures VisitAll(g, names, w) == VisitAll(g', names, w)
    decreases Unvisited(g, w), 2, |names|
  {
    hide Deps, SameUpToOrder, Closed;
    SameKeys(g, g');
    if names != [] {
      var front, last := names[..|names| - 1], names[|names| - 1];
      assert names == front + [last];
      SameVisitAll(g, g', front, w);
      if VisitAll(g, front, w).Some? {
        FewerUnvisited(g, w, VisitAll(g, front, w).value);
        SameVisit(g, g', last, VisitAll(g, front, w).value);
      }
    }
  }

  lemma ResolveSame(modules: seq<ModuleDependency>, modules': seq<ModuleDependency>)
    requires WellFormed(modules) && WellFormed(modules')
    requires SameUpToOrder(GraphOf(modules), GraphOf(modules'))
    ensures Resolve(modules) == Resolve(modules')
  {
    hide VisitAll, Closed;
    GraphKeys(modules);
    GraphKeys(modules');
    SortAscending(Names(modules));
    SortAscending(Names(modules'));
    AscendingUnique(Sort(Names(modules), Less), Sort(Names(modules'), Less));
    SameVisitAll(GraphOf(modules), GraphOf(modules'), Sort(Names(modules), Less), Walk([], {}, []));
  }

  // A module as far as the order of its dependency list is not looked at.
  function Shape(m: ModuleDependency): (string, multiset<string>) {
    (NameKey(m), multiset(m.dependsOn))
  }

  function ShapeName(x: (string, multiset<string>)): string {
    x.0
  }

  lemma {:induction false} GraphMeaning(modules: seq<ModuleDependency>)
    requires Distinct(Names(modules))
    ensures forall i | 0 <= i < |modules| :: NameKey(modules[i]) in GraphOf(modules) && GraphOf(modules)[NameKey(modules[i])] == modules[i].dependsOn
  {
    hide NameKey;
    if modules != [] {
      var front := modules[..|modules| - 1];
      var all := Names(modules);
      assert Names(front) == all[..|modules| - 1];
      GraphMeaning(front);
      forall i | 0 <= i < |front| ensures NameKey(modules[i]) != NameKey(modules[|modules| - 1]) {
        assert all[i] != all[|modules| - 1] && front[i] == modules[i];
      }
    }
  }

  // Rearranged modules have the same names.
  lemma SameNames(modules: seq<ModuleDependency>, modules': seq<ModuleDependency>)
    requires multiset(Project(modules, Shape)) == multiset(Project(modules', Shape))
    ensures multiset(Names(modules)) == multiset(Names(modules'))
  {
    var a, b := Project(modules, Shape), Project(modules', Shape);
    ProjectPermuted(a, b, ShapeName);
    assert Project(a, ShapeName) == Names(modules) && Project(b, ShapeName) == Names(modules');
  }

  lemma NamedPermuted(a: seq<ModuleDependency>, b: seq<ModuleDependency>)
    requires multiset(Names(a)) == multiset(Names(b)) && Named(a)
    ensures Named(b)
  {
    hide Distinct, Names;
    var p, q := Names(a), Names(b);
    PermutedDistinct(p, q);
    NamesLength(a);
    NamesLength(b);
    forall i | 0 <= i < |q| ensures q[i] != "" {
      assert q[i] in multiset(p);
      var j :| 0 <= j < |p| && p[j] == q[i];
    }
  }

  lemma NamesLength(modules: seq<ModuleDependency>)
    ensures |Names(modules)| == |modules|
  {
  }

  // One direction of having the same graph up to the order of dependencies.
  lemma GraphIncluded(modules: seq<ModuleDependency>, modules': seq<ModuleDependency>)
    requires multiset(Project(modules, Shape)) == multiset(Project(modules', Shape)) && Distinct(Names(modules)) && Distinct(Names(modules'))
    ensures forall n | n in GraphOf(modules) :: n in GraphOf(modules') && multiset(GraphOf(modules)[n]) == multiset(GraphOf(modules')[n])
  {
    hide Distinct, GraphOf, NameKey;
    GraphMeaning(modules);
    GraphMeaning(modules');
    GraphKeys(modules);
    var g, g', a, b := GraphOf(modules), GraphOf(modules'), Project(modules, Shape), Project(modules', Shape);
    forall n | n in g ensures n in g' && multiset(g[n]) == multiset(g'[n]) {
      assert n in Elements(Names(modules));
      var i :| 0 <= i < |modules| && Names(modules)[i] == n;
      assert a[i] in multiset(b);
      var j :| 0 <= j < |b| && b[j] == a[i];
      assert NameKey(modules'[j]) == n;
    }
  }

  lemma ClosedSame(g: Graph, g': Graph)
    requires SameUpToOrder(g, g') && Closed(g)
    ensures Closed(g')
  {
    hide Deps;
    forall name | name in g' ensures Deps(g', name) == Deps(g, name) {
      SameDeps(g, g', name);
    }
  }

  // The result, malformed verdicts included, shows neither the order of the
  // modules nor that of their dependency lists.
  lemma ResolveOrderFree(modules: seq<ModuleDependency>, modules': seq<ModuleDependency>)
    requires multiset(Project(modules, Shape)) == multiset(Project(modules', Shape))
    ensures WellFormed(modules) <==> WellFormed(modules')
    ensures Resolve(modules) == Resolve(modules')
  {
    hide Closed, GraphOf, Names, Named, Shape;
    SameNames(modules, modules');
    if Named(modules) || Named(modules') {
      if Named(modules) {
        NamedPermuted(modules, modules');
      } else {
        NamedPermuted(modules', modules);
      }
      NamedDistinct(modules);
      NamedDistinct(modules');
      GraphIncluded(modules, modules');
      GraphIncluded(modules', modules);
      var g, g' := GraphOf(modules), GraphOf(modules');
      assert SameUpToOrder(g, g') && SameUpToOrder(g', g);
      if Closed(g) {
        ClosedSame(g, g');
        ResolveSame(modules, modules');
      } else if Closed(g') {
        ClosedSame(g', g);
      }
    }
  }

  lemma NamedDistinct(modules: seq<ModuleDependency>)
    requires Named(modules)
    ensures Distinct(Names(modules))
  {
  }

  // ---- the source's loops ----

  // State numbers: 0 (absent) unseen, 1 active, 2 done.
  ghost predicate Coloured(state: map<string, int>, active: seq<string>) {
    && (forall n | n in state :: state[n] == 1 || state[n] == 2)
    && (forall n :: n in active <==> n in state && state[n] == 1)
  }

  ghost function DoneIn(state: map<string, int>): set<string> {
    set n | n in state && state[n] == 2
  }

  lemma StateOf(state: map<string, int>, active: seq<string>, name: string)
    requires Coloured(state, active)
    ensures name in state ==> (state[name] == 2 <==> name in DoneIn(state)) && (state[name] != 2 <==> name in active)
    ensures name !in state ==> name !in active && name !in DoneIn(state)
  {
  }

  lemma Activate(state: map<string, int>, active: seq<string>, name: string)
    requires Coloured(state, active) && name !in state
    ensures Coloured(state[name := 1], active + [name]) && DoneIn(state[name := 1]) == DoneIn(state)
  {
    assert forall n :: n in active + [name] <==> n in active || n == name;
  }

  lemma Finish(state: map<string, int>, active: seq<string>, name: string)
    requires Coloured(state, active + [name]) && name !in active
    ensures Coloured(state[name := 2], active) && DoneIn(state[name := 2]) == DoneIn(state) + {name}
  {
    assert forall n :: n in active + [name] <==> n in active || n == name;
  }

  lemma VisitUnfolds(g: Graph, name: string, w: Walk)
    requires Closed(g) && name in g
    ensures name in w.active ==> Visit(g, name, w).None?
    ensures name !in w.active && name in w.done ==> Visit(g, name, w) == Some(w)
    ensures name !in w.active && name !in w.done ==>
      && (forall d | d in Deps(g, name) :: d in g)
      && var r := VisitAll(g, Deps(g, name), w.(active := w.active + [name]));
         Visit(g, name, w) == if r.None? then None else Some(Walk(w.active, r.value.done + {name}, r.value.order + [name]))
  {
    hide Deps;
  }

  // The closure visit with the variables it shares.
  class Resolver {
    const byName: Graph
    var state: map<string, int>
    var order: seq<string>
    ghost var active: seq<string>

    constructor (byName: Graph)
      ensures this.byName == byName && Valid() && Model() == Walk([], {}, [])
    {
      this.byName := byName;
      state := map[];
      order := [];
      active := [];
    }

    ghost predicate Valid()
      reads this
    {
      Coloured(state, active)
    }

    ghost function Model(): Walk
      reads this
    {
      Walk(active, DoneIn(state), order)
    }

    method VisitModule(name: string) returns (ok: bool)
      requires Valid() && Closed(byName) && name in byName
      modifies this
      ensures Valid() && (ok <==> Visit(byName, name, old(Model())).Some?)
      ensures ok ==> Model() == Visit(byName, name, old(Model())).value
      decreases Unvisited(byName, Model()), 1
    {
      hide Sort, TrimSpace, Coloured, DoneIn, Visit, VisitAll, Closed, Unvisited;
      ghost var w := Model();
      VisitUnfolds(byName, name, w);
      StateOf(state, active, name);
      if name in state {
        return state[name] == 2;
      }
      EnterShrinks(byName, w, name);
      Activate(state, active, name);
      state := state[name := 1];
      active := active + [name];
      ghost var inside := Model();
      var dependencies := Sort(byName[name], Less);
      ghost var deps := Deps(byName, name);
      hide Deps;
      VisitAllNothing(byName, inside);
      for n := 0 to |dependencies|
        invariant Valid() && VisitAll(byName, deps[..n], inside) == Some(Model())
      {
        assert deps[..n + 1][..n] == deps[..n];
        VisitAllSnoc(byName, deps[..n + 1], inside);
        FewerUnvisited(byName, inside, Model());
        ok := VisitModule(TrimSpace(dependencies[n]));
        if !ok {
          VisitAllPrefix(byName, deps, n + 1, inside);
          return false;
        }
      }
      assert deps[..|dependencies|] == deps;
      Finish(state, w.active, name);
      state := state[name := 2];
      order := order + [name];
      active := w.active;
      ok := true;
    }
  }

  // A failure part-way through is a failure of the whole list.
  lemma {:induction false} VisitAllPrefix(g: Graph, names: seq<string>, n: nat, w: Walk)
    requires Closed(g) && (forall x | x in names :: x in g) && n <= |names| && VisitAll(g, names[..n], w).None?
    ensures VisitAll(g, names, w).None?
    decreases |names| - n
  {
    hide Closed;
    if n == |names| {
      assert names[..n] == names;
    } else {
      assert names[..n + 1][..n] == names[..n];
      VisitAllPrefix(g, names, n + 1, w);
    }
  }

  // The first n modules are named, distinct and indexed.
  ghost predicate Indexed(modules: seq<ModuleDependency>, n: nat, byName: Graph)
    requires n <= |modules|
  {
    && byName == GraphOf(modules[..n]) && Distinct(Names(modules)[..n]) && byName.Keys == Elements(Names(modules)[..n])
    && forall i | 0 <= i < n :: Names(modules)[i] != ""
  }

  lemma IndexedStep(modules: seq<ModuleDependency>, n: nat, byName: Graph)
    requires n < |modules| && Indexed(modules, n, byName)
    ensures var name := NameKey(modules[n]);
      if name == "" || name in byName then !Named(modules) else Indexed(modules, n + 1, byName[name := modules[n].dependsOn])
  {
    hide Distinct, NameKey;
    assert modules[..n + 1][..n] == modules[..n];
    SeenStep(Names(modules), n);
  }

  lemma IndexedAll(modules: seq<ModuleDependency>, byName: Graph)
    requires Indexed(modules, |modules|, byName)
    ensures Named(modules) && byName == GraphOf(modules) && byName.Keys == Elements(Names(modules))
  {
    hide Distinct, NameKey, GraphOf;
    var all := Names(modules);
    assert modules[..|modules|] == modules && all[..|modules|] == all;
  }

  method IndexModules(modules: seq<ModuleDependency>) returns (ok: bool, byName: Graph)
    ensures ok <==> Named(modules)
    ensures ok ==> byName == GraphOf(modules) && byName.Keys == Elements(Names(modules))
  {
    byName := map[];
    assert Indexed(modules, 0, byName);
    hide TrimSpace, Named, GraphOf, Indexed, Names;
    for n := 0 to |modules|
      invariant Indexed(modules, n, byName)
    {
      IndexedStep(modules, n, byName);
      var name := TrimSpace(modules[n].name);
      if name == "" || name in byName {
        return false, byName;
      }
      byName := byName[name := modules[n].dependsOn];
    }
    IndexedAll(modules, byName);
    ok := true;
  }

  // Whatever order the names come in, sorting gives one list.
  lemma SameListing(names: seq<string>, all: seq<string>)
    requires Distinct(names) && Distinct(all) && Elements(names) == Elements(all)
    ensures Sort(names, Less) == Sort(all, Less) && forall x | x in Sort(names, Less) :: x in Elements(all)
  {
    hide Sort, Distinct, Ascending;
    SortAscending(names);
    SortAscending(all);
    AscendingUnique(Sort(names, Less), Sort(all, Less));
  }

  method ResolveInstallOrder(modules: seq<ModuleDependency>) returns (result: Resolution)
    ensures result == Resolve(modules)
  {
    hide Sort, Closed, VisitAll, Visit, Distinct, Names, GraphOf, Ascending;
    var indexed, byName := IndexModules(modules);
    if !indexed {
      return Malformed;
    }
    var closed := AllKnown(byName);
    if !closed {
      return Malformed;
    }
    var names := AnyOrder(byName.Keys);
    var sorted := Sort(names, Less);
    SameListing(names, Names(modules));
    var resolver := new Resolver(byName);
    ghost var start := resolver.Model();
    VisitAllNothing(byName, start);
    for n := 0 to |sorted|
      invariant resolver.byName == byName && resolver.Valid() && fresh(resolver)
      invariant (forall x | x in sorted :: x in byName) && VisitAll(byName, sorted[..n], start) == Some(resolver.Model())
    {
      assert sorted[..n + 1][..n] == sorted[..n];
      VisitAllSnoc(byName, sorted[..n + 1], start);
      var ok := resolver.VisitModule(sorted[n]);
      if !ok {
        VisitAllPrefix(byName, sorted, n + 1, start);
        return Cyclic;
      }
    }
    assert sorted[..|sorted|] == sorted;
    result := Order(resolver.order);
  }

  lemma VisitAllNothing(g: Graph, w: Walk)
    requires Closed(g)
    ensures VisitAll(g, [], w) == Some(w)
  {
  }

  lemma VisitAllSnoc(g: Graph, names: seq<string>, w: Walk)
    requires Closed(g) && names != [] && forall n | n in names :: n in g
    ensures var front := VisitAll(g, names[..|names| - 1], w);
      VisitAll(g, names, w) == if front.None? then None else Visit(g, names[|names| - 1], front.value)
  {
  }

  // Every dependency names a module.
  method AllKnown(byName: Graph) returns (ok: bool)
    ensures ok <==> Closed(byName)
  {
    hide Sort, TrimSpace;
    var left := byName.Keys;
    while left != {}
      invariant left <= byName.Keys
      invariant forall n | n in byName && n !in left :: forall d | d in Deps(byName, n) :: d in byName
      decreases left
    {
      var name :| name in left;
      var list := byName[name];
      for k := 0 to |list|
        invariant forall i | 0 <= i < k :: TrimSpace(list[i]) in byName
      {
        if TrimSpace(list[k]) !in byName {
          DepsAreTrimmed(byName, name);
          assert TrimSpace(list[k]) in Deps(byName, name);
          return false;
        }
      }
      DepsAreTrimmed(byName, name);
      left := left - {name};
    }
    ok := true;
  }

  lemma DepsAreTrimmed(g: Graph, name: string)
    requires name in g
    ensures forall d :: d in Deps(g, name) <==> exists i | 0 <= i < |g[name]| :: TrimSpace(g[name][i]) == d
  {
    hide TrimSpace, Sort;
    var s := Sort(g[name], Less);
    forall d ensures d in Deps(g, name) <==> exists i | 0 <= i < |g[name]| :: TrimSpace(g[name][i]) == d {
      if d in Deps(g, name) {
        var k :| 0 <= k < |s| && TrimSpace(s[k]) == d;
        SortElements(g[name], Less, s[k]);
        assert s[k] in g[name];
      }
      if i :| 0 <= i < |g[name]| && TrimSpace(g[name][i]) == d {
        SortElements(g[name], Less, g[name][i]);
        var k :| 0 <= k < |s| && s[k] == g[name][i];
        assert Deps(g, name)[k] == d;
      }
    }
  }
}
