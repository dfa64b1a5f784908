/** Ordering of chart configurations: a depth-first topological sort over declared Helm dependencies. */
module ChartSort {
  import opened Wrappers
  import opened Charts

  // ---------------------------------------------------------------- the dependency graph

  /** Configurations by chart name. */
  type Graph = map<string, ChartConfig>

  ghost predicate WellKeyed(g: Graph) {
    forall n | n in g :: g[n].Name() == n
  }

  /** The last configuration of each name wins. */
  function GraphOf(configs: seq<ChartConfig>): Graph {
    if configs == [] then map[]
    else
      var last := configs[|configs| - 1];
      GraphOf(configs[..|configs| - 1])[last.Name() := last]
  }

  lemma {:induction false} GraphOfEntries(configs: seq<ChartConfig>)
    ensures WellKeyed(GraphOf(configs))
    ensures forall n | n in GraphOf(configs) :: GraphOf(configs)[n] in configs
    ensures forall c | c in configs :: c.Name() in GraphOf(configs)
  {
    if configs != [] {
      GraphOfEntries(configs[..|configs| - 1]);
    }
  }

  function Names(configs: seq<ChartConfig>): (names: seq<string>)
    ensures |names| == |configs|
    ensures forall i | 0 <= i < |configs| :: names[i] == configs[i].Name()
  {
    seq(|configs|, i requires 0 <= i < |configs| => configs[i].Name())
  }

  function NameSet(configs: seq<ChartConfig>): set<string> {
    set c | c in configs :: c.Name()
  }

  lemma NameSetConcat(a: seq<ChartConfig>, b: seq<ChartConfig>)
    ensures NameSet(a + b) == NameSet(a) + NameSet(b)
  {
    assert forall c :: c in a + b <==> c in a || c in b;
  }

  lemma TakeSnoc(r: seq<ChartConfig>, i: nat)
    requires i < |r|
    ensures r[..i + 1] == r[..i] + [r[i]]
  {
  }

  lemma NameSetSnoc(r: seq<ChartConfig>, c: ChartConfig)
    ensures NameSet(r + [c]) == NameSet(r) + {c.Name()}
  {
    NameSetConcat(r, [c]);
    assert c in [c];
  }

  /** The position at which a name is listed. */
  lemma Position(configs: seq<ChartConfig>, n: string) returns (i: nat)
    requires n in NameSet(configs)
    ensures i < |configs| && configs[i].Name() == n
  {
    var c :| c in configs && c.Name() == n;
    i :| 0 <= i < |configs| && configs[i] == c;
  }

  predicate DependsOn(c: ChartConfig, dep: string) {
    Dependency(dep, true) in c.chart.dependsOn
  }

  /** A Helm dependency between two charts of the list. */
  predicate Edge(g: Graph, a: string, b: string) {
    a in g && b in g && DependsOn(g[a], b)
  }

  predicate IsPath(g: Graph, p: seq<string>) {
    && p != []
    && (forall i | 0 <= i < |p| :: p[i] in g)
    && forall i | 0 <= i < |p| - 1 :: Edge(g, p[i], p[i + 1])
  }

  ghost predicate HasCycle(g: Graph) {
    exists p :: IsPath(g, p) && |p| >= 2 && p[0] == p[|p| - 1]
  }

  ghost predicate Reaches(g: Graph, a: string, b: string) {
    exists p :: IsPath(g, p) && p[0] == a && p[|p| - 1] == b
  }

  /** Each in-list Helm dependency of an entry is the name of an earlier entry. */
  ghost predicate Topological(g: Graph, r: seq<ChartConfig>) {
    forall i, d | 0 <= i < |r| && d in g && DependsOn(r[i], d) :: exists j | 0 <= j < i :: r[j].Name() == d
  }

  predicate DistinctNames(r: seq<ChartConfig>) {
    forall i, j | 0 <= i < j < |r| :: r[i].Name() != r[j].Name()
  }

  // ---------------------------------------------------------------- the search

  datatype Dfs = Dfs(visited: set<string>, inProgress: set<string>, result: seq<ChartConfig>)

  const START := Dfs({}, {}, [])

  function HelmNames(deps: seq<Dependency>): (names: seq<string>)
    ensures forall d :: d in names <==> Dependency(d, true) in deps
  {
    if deps == [] then []
    else (if deps[0].helm then [deps[0].name] else []) + HelmNames(deps[1..])
  }

  /** Visits one name; None is the circular-dependency error. */
  function Explore(g: Graph, name: string, st: Dfs): (r: Option<Dfs>)
    ensures r.Some? ==> r.value.inProgress == st.inProgress
    decreases g.Keys - st.inProgress, 0
  {
    if name in st.inProgress then None
    else if name in st.visited || name !in g then Some(st)
    else
      match ExploreAll(g, HelmNames(g[name].chart.dependsOn), st.(inProgress := st.inProgress + {name}))
      case None => None
      case Some(s) => Some(Dfs(s.visited + {name}, s.inProgress - {name}, s.result + [g[name]]))
  }

  function ExploreAll(g: Graph, names: seq<string>, st: Dfs): (r: Option<Dfs>)
    ensures r.Some? ==> r.value.inProgress == st.inProgress
    decreases g.Keys - st.inProgress, |names| + 1
  {
    if names == [] then Some(st)
    else
      match Explore(g, names[0], st)
      case None => None
      case Some(s) => ExploreAll(g, names[1..], s)
  }

  function Sorted(configs: seq<ChartConfig>): Result<seq<ChartConfig>, Error> {
    match ExploreAll(GraphOf(configs), Names(configs), START)
    case None => Err(CycleError)
    case Some(s) => Ok(s.result)
  }

  // ---------------------------------------------------------------- the sorter

  /** The search state that the recursive visit of the sort updates. */
  class DependencySorter {
    const chartConfigMap: Graph
    var visited: set<string>
    var inProgress: set<string>
    var result: seq<ChartConfig>

    ghost function State(): Dfs
      reads this
    {
      Dfs(visited, inProgress, result)
    }

    constructor (chartConfigMap: Graph)
      ensures this.chartConfigMap == chartConfigMap && State() == START
    {
      this.chartConfigMap := chartConfigMap;
      visited, inProgress, result := {}, {}, [];
    }

    method Visit(name: string) returns (ok: bool)
      modifies this
      ensures ok <==> Explore(chartConfigMap, name, old(State())).Some?
      ensures ok ==> Some(State()) == Explore(chartConfigMap, name, old(State()))
      decreases chartConfigMap.Keys - inProgress
    {
      if name in inProgress {
        return false;
      }
      if name in visited || name !in chartConfigMap {
        return true;
      }
      inProgress := inProgress + {name};
      ghost var entered := State();
      var deps := chartConfigMap[name].chart.dependsOn;
      for i := 0 to |deps|
        invariant inProgress == old(inProgress) + {name}
        invariant ExploreAll(chartConfigMap, HelmNames(deps), entered)
               == ExploreAll(chartConfigMap, HelmNames(deps[i..]), State())
      {
        if deps[i].helm {
          assert HelmNames(deps[i..])[1..] == HelmNames(deps[i + 1..]);
          ok := Visit(deps[i].name);
          if !ok {
            return false;
          }
        } else {
          assert HelmNames(deps[i..]) == HelmNames(deps[i + 1..]);
        }
      }
      inProgress := inProgress - {name};
      visited := visited + {name};
      result := result + [chartConfigMap[name]];
      return true;
    }
  }

  method IndexConfigs(configs: seq<ChartConfig>) returns (chartConfigMap: Graph)
    ensures chartConfigMap == GraphOf(configs)
  {
    chartConfigMap := map[];
    for i := 0 to |configs|
      invariant chartConfigMap == GraphOf(configs[..i])
    {
      assert configs[..i + 1][..i] == configs[..i];
      chartConfigMap := chartConfigMap[configs[i].Name() := configs[i]];
    }
    assert configs[..|configs|] == configs;
  }

  method SortChartConfigsByDependencies(configs: seq<ChartConfig>) returns (r: Result<seq<ChartConfig>, Error>)
    ensures r == Sorted(configs)
  {
    var chartConfigMap := IndexConfigs(configs);
    var sorter := new DependencySorter(chartConfigMap);
    ghost var names := Names(configs);
    for i := 0 to |configs|
      invariant sorter.chartConfigMap == chartConfigMap
      invariant ExploreAll(chartConfigMap, names, START) == ExploreAll(chartConfigMap, names[i..], sorter.State())
    {
      var ok := sorter.Visit(configs[i].Name());
      if !ok {
        return Err(CycleError);
      }
    }
    return Ok(sorter.result);
  }

  // ---------------------------------------------------------------- what the search keeps

  ghost predicate Inv(g: Graph, st: Dfs) {
    && st.visited !! st.inProgress
    && st.visited == NameSet(st.result)
    && Consistent(g, st.result)
    && DistinctNames(st.result)
    && Topological(g, st.result)
  }

  /** Each entry is the graph's configuration of its name. */
  ghost predicate Consistent(g: Graph, r: seq<ChartConfig>) {
    forall i | 0 <= i < |r| :: r[i].Name() in g && r[i] == g[r[i].Name()]
  }

  lemma ReachesRefl(g: Graph, a: string)
    requires a in g
    ensures Reaches(g, a, a)
  {
    assert IsPath(g, [a]);
  }

  lemma ReachesStep(g: Graph, a: string, b: string, c: string)
    requires Edge(g, a, b) && Reaches(g, b, c)
    ensures Reaches(g, a, c)
  {
    var p: seq<string> :| IsPath(g, p) && p[0] == b && p[|p| - 1] == c;
    assert IsPath(g, [a] + p) by {
      forall i | 0 <= i < |[a] + p| - 1 ensures Edge(g, ([a] + p)[i], ([a] + p)[i + 1]) {
        if i > 0 { assert Edge(g, p[i - 1], p[i - 1 + 1]); }
      }
    }
    assert ([a] + p)[|[a] + p| - 1] == c;
  }

  lemma TopologicalAppend(g: Graph, r: seq<ChartConfig>, c: ChartConfig)
    requires Topological(g, r) && forall d | d in g && DependsOn(c, d) :: d in NameSet(r)
    ensures Topological(g, r + [c])
  {
    var r' := r + [c];
    forall i, d | 0 <= i < |r'| && d in g && DependsOn(r'[i], d) ensures exists j | 0 <= j < i :: r'[j].Name() == d {
      if i == |r| {
        var j := Position(r, d);
        assert r'[j].Name() == d;
      } else {
        assert DependsOn(r[i], d);
        var j :| 0 <= j < i && r[j].Name() == d;
        assert r'[j].Name() == d;
      }
    }
  }

  lemma DistinctAppend(r: seq<ChartConfig>, c: ChartConfig)
    requires DistinctNames(r) && c.Name() !in NameSet(r)
    ensures DistinctNames(r + [c])
  {
    forall i | 0 <= i < |r| ensures r[i].Name() != c.Name() {
      assert r[i] in r;
    }
  }

  /** Appending a chart whose in-list Helm dependencies are all listed keeps the invariant. */
  lemma FinishKeeps(g: Graph, name: string, s: Dfs)
    requires WellKeyed(g) && Inv(g, s) && name in g && name in s.inProgress
    requires forall d | d in g && DependsOn(g[name], d) :: d in s.visited
    ensures Inv(g, Dfs(s.visited + {name}, s.inProgress - {name}, s.result + [g[name]]))
  {
    NameSetSnoc(s.result, g[name]);
    TopologicalAppend(g, s.result, g[name]);
    DistinctAppend(s.result, g[name]);
  }

  /** A successful visit keeps the invariant, only extends the result, includes the root and adds only charts that
      the root reaches. */
  lemma {:induction false} ExploreKeeps(g: Graph, name: string, st: Dfs)
    requires WellKeyed(g) && Inv(g, st) && Explore(g, name, st).Some?
    ensures var s := Explore(g, name, st).value;
            && Inv(g, s) && st.visited <= s.visited && st.result <= s.result
            && (name in g ==> name in s.visited)
            && forall n | n in s.visited - st.visited :: Reaches(g, name, n)
    decreases g.Keys - st.inProgress, 0
  {
    if name !in st.visited && name in g {
      var deps := HelmNames(g[name].chart.dependsOn);
      var entered := st.(inProgress := st.inProgress + {name});
      ExploreAllKeeps(g, deps, entered);
      var s := ExploreAll(g, deps, entered).value;
      FinishKeeps(g, name, s);
      ReachesRefl(g, name);
      forall n | n in s.visited - st.visited ensures Reaches(g, name, n) {
        var d :| d in deps && Reaches(g, d, n);
        ReachesStep(g, name, d, n);
      }
    }
  }

  lemma {:induction false} ExploreAllKeeps(g: Graph, names: seq<string>, st: Dfs)
    requires WellKeyed(g) && Inv(g, st) && ExploreAll(g, names, st).Some?
    ensures var s := ExploreAll(g, names, st).value;
            && Inv(g, s) && st.visited <= s.visited && st.result <= s.result
            && (forall n | n in names && n in g :: n in s.visited)
            && forall n | n in s.visited - st.visited :: exists a :: a in names && Reaches(g, a, n)
    decreases g.Keys - st.inProgress, |names| + 1
  {
    if names != [] {
      var mid := Explore(g, names[0], st).value;
      ExploreKeeps(g, names[0], st);
      ExploreAllKeeps(g, names[1..], mid);
      var s := ExploreAll(g, names, st).value;
      assert names == [names[0]] + names[1..];
      forall n | n in s.visited - st.visited ensures exists a :: a in names && Reaches(g, a, n) {
        if n in mid.visited {
          assert names[0] in names && Reaches(g, names[0], n);
        } else {
          assert n in s.visited - mid.visited;
          var a :| a in names[1..] && Reaches(g, a, n);
          assert a in names;
        }
      }
    }
  }

  lemma StartInv(g: Graph)
    ensures Inv(g, START)
  {
  }

  // ---------------------------------------------------------------- errors are cycles

  /** The charts being visited, outermost first, form a path. */
  ghost predicate IsStack(g: Graph, stack: seq<string>, st: Dfs) {
    && (forall n :: n in stack <==> n in st.inProgress)
    && (stack != [] ==> IsPath(g, stack))
  }

  lemma {:induction false} ExploreFailure(g: Graph, name: string, st: Dfs, stack: seq<string>)
    requires IsStack(g, stack, st) && Explore(g, name, st).None?
    requires name in g ==> stack == [] || Edge(g, stack[|stack| - 1], name)
    ensures HasCycle(g)
    decreases g.Keys - st.inProgress, 0
  {
    if name in st.inProgress {
      var i :| 0 <= i < |stack| && stack[i] == name;
      var p := stack[i..] + [name];
      forall k | 0 <= k < |p| - 1 ensures Edge(g, p[k], p[k + 1]) {
        if k < |p| - 2 { assert Edge(g, stack[i + k], stack[i + k + 1]); }
      }
      assert IsPath(g, p) && p[0] == p[|p| - 1];
    } else {
      var entered, stack' := st.(inProgress := st.inProgress + {name}), stack + [name];
      forall k | 0 <= k < |stack'| - 1 ensures Edge(g, stack'[k], stack'[k + 1]) {
        if k < |stack| - 1 { assert Edge(g, stack[k], stack[k + 1]); }
      }
      ExploreAllFailure(g, HelmNames(g[name].chart.dependsOn), entered, stack');
    }
  }

  lemma {:induction false} ExploreAllFailure(g: Graph, names: seq<string>, st: Dfs, stack: seq<string>)
    requires IsStack(g, stack, st) && ExploreAll(g, names, st).None?
    requires forall n | n in names && n in g :: stack == [] || Edge(g, stack[|stack| - 1], n)
    ensures HasCycle(g)
    decreases g.Keys - st.inProgress, |names| + 1
  {
    match Explore(g, names[0], st)
    case None => ExploreFailure(g, names[0], st, stack);
    case Some(s) =>
      assert names == [names[0]] + names[1..];
      ExploreAllFailure(g, names[1..], s, stack);
  }

  // ---------------------------------------------------------------- results are orders

  /** What the sort promises of a successful result. */
  ghost predicate IsOrderOf(r: seq<ChartConfig>, g: Graph) {
    && DistinctNames(r)
    && Consistent(g, r)
    && NameSet(r) == g.Keys
    && Topological(g, r)
  }

  /** Along a path, positions never increase. */
  lemma {:induction false} PathOrder(g: Graph, r: seq<ChartConfig>, p: seq<string>, i: nat, j: nat)
    requires IsOrderOf(r, g) && IsPath(g, p)
    requires i < |r| && r[i].Name() == p[0] && j < |r| && r[j].Name() == p[|p| - 1]
    ensures j <= i && (|p| >= 2 ==> j < i)
    decreases |p|
  {
    if |p| == 1 {
      assert i == j;
    } else {
      PathTail(g, p);
      var k :| 0 <= k < i && r[k].Name() == p[1];
      PathOrder(g, r, p[1..], k, j);
    }
  }

  lemma OrderHasNoCycle(g: Graph, r: seq<ChartConfig>)
    requires IsOrderOf(r, g)
    ensures !HasCycle(g)
  {
    if HasCycle(g) {
      var p :| IsPath(g, p) && |p| >= 2 && p[0] == p[|p| - 1];
      var i := Position(r, p[0]);
      PathOrder(g, r, p, i, i);
    }
  }

  lemma SortedIsOrder(configs: seq<ChartConfig>)
    requires Sorted(configs).Ok?
    ensures IsOrderOf(Sorted(configs).value, GraphOf(configs))
  {
    var g := GraphOf(configs);
    GraphOfEntries(configs);
    StartInv(g);
    ExploreAllKeeps(g, Names(configs), START);
    var r := Sorted(configs).value;
    forall n | n in g ensures n in NameSet(r) {
      var i :| 0 <= i < |configs| && configs[i] == g[n];
      assert Names(configs)[i] == n;
    }
    forall n | n in NameSet(r) ensures n in g {
      var i := Position(r, n);
    }
  }

  /** The sort fails exactly when the in-list Helm dependencies have a cycle; otherwise each name comes exactly once,
      with its last configuration, after all of its in-list Helm dependencies. */
  lemma SortErrorIffCycle(configs: seq<ChartConfig>)
    ensures Sorted(configs).Err? <==> HasCycle(GraphOf(configs))
    ensures Sorted(configs).Ok? ==> IsOrderOf(Sorted(configs).value, GraphOf(configs))
  {
    if Sorted(configs).Err? {
      ExploreAllFailure(GraphOf(configs), Names(configs), START, []);
    } else {
      SortedIsOrder(configs);
      OrderHasNoCycle(GraphOf(configs), Sorted(configs).value);
    }
  }

  // ---------------------------------------------------------------- stability

  lemma {:induction false} ExploreAllConcat(g: Graph, a: seq<string>, b: seq<string>, st: Dfs)
    ensures ExploreAll(g, a + b, st) ==
            match ExploreAll(g, a, st) { case None => None case Some(s) => ExploreAll(g, b, s) }
    decreases |a|
  {
    if a == [] {
      assert a + b == b;
    } else {
      assert (a + b)[1..] == a[1..] + b;
      match Explore(g, a[0], st)
      case None =>
      case Some(s) => ExploreAllConcat(g, a[1..], b, s);
    }
  }

  lemma PathTail(g: Graph, p: seq<string>)
    requires IsPath(g, p) && |p| > 1
    ensures IsPath(g, p[1..]) && Edge(g, p[0], p[1])
  {
    assert Edge(g, p[0], p[0 + 1]);
    forall m | 0 <= m < |p[1..]| - 1 ensures Edge(g, p[1..][m], p[1..][m + 1]) {
      assert Edge(g, p[m + 1], p[m + 1 + 1]);
    }
  }

  /** A list closed under dependencies contains all it reaches. */
  lemma {:induction false} ClosedReach(g: Graph, r: seq<ChartConfig>, p: seq<string>)
    requires IsPath(g, p) && p[0] in NameSet(r) && Consistent(g, r) && Topological(g, r)
    ensures p[|p| - 1] in NameSet(r)
    decreases |p|
  {
    if |p| > 1 {
      PathTail(g, p);
      var i := Position(r, p[0]);
      var j :| 0 <= j < i && r[j].Name() == p[1];
      assert r[j] in r;
      ClosedReach(g, r, p[1..]);
    }
  }

  /** `name` is reached from one of the first `i` roots. */
  ghost predicate FromRoots(configs: seq<ChartConfig>, i: nat, name: string)
    requires i <= |configs|
  {
    exists j :: 0 <= j < i && Reaches(GraphOf(configs), configs[j].Name(), name)
  }

  /** The search state after the first `i` roots of a successful sort. */
  lemma RootsState(configs: seq<ChartConfig>, i: nat) returns (mid: Dfs)
    requires Sorted(configs).Ok? && i <= |configs|
    ensures ExploreAll(GraphOf(configs), Names(configs)[..i], START) == Some(mid)
    ensures mid.result <= Sorted(configs).value
    ensures Consistent(GraphOf(configs), mid.result) && Topological(GraphOf(configs), mid.result)
    ensures forall j | 0 <= j < i :: configs[j].Name() in NameSet(mid.result)
    ensures forall n | n in NameSet(mid.result) :: FromRoots(configs, i, n)
  {
    var g, names := GraphOf(configs), Names(configs);
    GraphOfEntries(configs);
    assert names == names[..i] + names[i..];
    ExploreAllConcat(g, names[..i], names[i..], START);
    StartInv(g);
    ExploreAllKeeps(g, names[..i], START);
    mid := ExploreAll(g, names[..i], START).value;
    ExploreAllKeeps(g, names[i..], mid);
    forall j | 0 <= j < i ensures configs[j].Name() in mid.visited {
      assert configs[j] in configs && names[..i][j] in names[..i];
    }
    forall n | n in mid.visited ensures FromRoots(configs, i, n) {
      assert n in mid.visited - START.visited;
      FromListedRoot(configs, i, n);
    }
  }

  lemma FromListedRoot(configs: seq<ChartConfig>, i: nat, n: string)
    requires i <= |configs|
    requires exists a :: a in Names(configs)[..i] && Reaches(GraphOf(configs), a, n)
    ensures FromRoots(configs, i, n)
  {
    var a :| a in Names(configs)[..i] && Reaches(GraphOf(configs), a, n);
    var j :| 0 <= j < i && Names(configs)[..i][j] == a;
  }

  lemma FromRootsListed(configs: seq<ChartConfig>, i: nat, r: seq<ChartConfig>, n: string)
    requires i <= |configs| && FromRoots(configs, i, n)
    requires Consistent(GraphOf(configs), r) && Topological(GraphOf(configs), r)
    requires forall j | 0 <= j < i :: configs[j].Name() in NameSet(r)
    ensures n in NameSet(r)
  {
    var j :| 0 <= j < i && Reaches(GraphOf(configs), configs[j].Name(), n);
    ReachedIsListed(GraphOf(configs), r, configs[j].Name(), n);
  }

  lemma ReachedIsListed(g: Graph, r: seq<ChartConfig>, a: string, n: string)
    requires Reaches(g, a, n) && a in NameSet(r) && Consistent(g, r) && Topological(g, r)
    ensures n in NameSet(r)
  {
    var p :| IsPath(g, p) && p[0] == a && p[|p| - 1] == n;
    ClosedReach(g, r, p);
  }

  /** The part of the result due to the first `i` roots: exactly the charts those roots reach. */
  lemma RootsPrefix(configs: seq<ChartConfig>, i: nat) returns (n: nat)
    requires Sorted(configs).Ok? && i <= |configs|
    ensures n <= |Sorted(configs).value|
    ensures forall name :: name in NameSet(Sorted(configs).value[..n]) <==> FromRoots(configs, i, name)
  {
    var mid := RootsState(configs, i);
    n := |mid.result|;
    assert Sorted(configs).value[..n] == mid.result;
    forall name | FromRoots(configs, i, name) ensures name in NameSet(mid.result) {
      FromRootsListed(configs, i, mid.result, name);
    }
  }

  lemma {:induction false} ExploreAllNoop(g: Graph, names: seq<string>, st: Dfs)
    requires forall n | n in names :: n !in st.inProgress && (n in st.visited || n !in g)
    ensures ExploreAll(g, names, st) == Some(st)
    decreases |names|
  {
    if names != [] {
      assert names[0] in names;
      ExploreAllNoop(g, names[1..], st);
    }
  }

  lemma {:induction false} GraphOfDistinct(configs: seq<ChartConfig>)
    requires DistinctNames(configs)
    ensures forall i | 0 <= i < |configs| ::
              configs[i].Name() in GraphOf(configs) && GraphOf(configs)[configs[i].Name()] == configs[i]
  {
    if configs != [] {
      GraphOfDistinct(configs[..|configs| - 1]);
    }
  }

  /** In an ordered list, the dependencies of entry `i` are listed before it. */
  lemma EarlierDependency(g: Graph, r: seq<ChartConfig>, i: nat, d: string)
    requires DistinctNames(r) && Topological(g, r) && i < |r| && DependsOn(r[i], d) && d in g
    ensures d != r[i].Name() && d in NameSet(r[..i])
  {
    var j :| 0 <= j < i && r[j].Name() == d;
    assert r[..i][j] == r[j];
  }

  lemma FreshName(r: seq<ChartConfig>, i: nat)
    requires DistinctNames(r) && i < |r|
    ensures r[i].Name() !in NameSet(r[..i])
  {
    forall c | c in r[..i] ensures c.Name() != r[i].Name() {
      var j :| 0 <= j < i && r[..i][j] == c;
    }
  }

  lemma ExploreNext(configs: seq<ChartConfig>, i: nat)
    requires DistinctNames(configs) && Topological(GraphOf(configs), configs) && i < |configs|
    ensures Explore(GraphOf(configs), configs[i].Name(), Dfs(NameSet(configs[..i]), {}, configs[..i]))
         == Some(Dfs(NameSet(configs[..i + 1]), {}, configs[..i + 1]))
  {
    var g, c, st := GraphOf(configs), configs[i], Dfs(NameSet(configs[..i]), {}, configs[..i]);
    assert c.Name() in g && g[c.Name()] == c by {
      GraphOfDistinct(configs);
    }
    var entered := st.(inProgress := st.inProgress + {c.Name()});
    assert ExploreAll(g, HelmNames(c.chart.dependsOn), entered) == Some(entered) && c.Name() !in st.visited by {
      FreshName(configs, i);
      forall d | DependsOn(c, d) && d in g ensures d != c.Name() && d in st.visited {
        EarlierDependency(g, configs, i, d);
      }
      ExploreAllNoop(g, HelmNames(c.chart.dependsOn), entered);
    }
    assert entered.inProgress - {c.Name()} == {};
    TakeSnoc(configs, i);
    NameSetSnoc(configs[..i], c);
  }

  lemma {:induction false} OrderedFrom(configs: seq<ChartConfig>, i: nat)
    requires DistinctNames(configs) && Topological(GraphOf(configs), configs) && i <= |configs|
    ensures ExploreAll(GraphOf(configs), Names(configs)[i..], Dfs(NameSet(configs[..i]), {}, configs[..i]))
         == Some(Dfs(NameSet(configs), {}, configs))
    decreases |configs| - i
  {
    if i < |configs| {
      ExploreNext(configs, i);
      OrderedFrom(configs, i + 1);
      assert Names(configs)[i..][1..] == Names(configs)[i + 1..];
    } else {
      assert configs[..i] == configs;
    }
  }

  /** A list of distinct charts that is already in dependency order is returned unchanged. */
  lemma OrderedInputUnchanged(configs: seq<ChartConfig>)
    requires DistinctNames(configs) && Topological(GraphOf(configs), configs)
    ensures Sorted(configs) == Ok(configs)
  {
    OrderedFrom(configs, 0);
    assert Names(configs)[0..] == Names(configs);
    assert Dfs(NameSet(configs[..0]), {}, configs[..0]) == START;
  }

  lemma SortIdempotent(configs: seq<ChartConfig>)
    requires Sorted(configs).Ok?
    ensures Sorted(Sorted(configs).value) == Sorted(configs)
  {
    var r, g := Sorted(configs).value, GraphOf(configs);
    SortedIsOrder(configs);
    GraphOfDistinct(r);
    GraphOfEntries(r);
    forall n | n in g ensures n in GraphOf(r) && GraphOf(r)[n] == g[n] {
      var i := Position(r, n);
      assert r[i] in r;
    }
    assert GraphOf(r) == g;
    OrderedInputUnchanged(r);
  }

  // ---------------------------------------------------------------- core charts before solution charts

  /** Every chart that a core name reaches has a core name. */
  ghost predicate CoreClosed(core: seq<ChartConfig>, solution: seq<ChartConfig>) {
    forall a, b | a in NameSet(core) && Reaches(GraphOf(core + solution), a, b) :: b in NameSet(core)
  }

  /** In `r` no chart with a core name comes after one without. */
  ghost predicate CoreFirst(core: seq<ChartConfig>, r: seq<ChartConfig>) {
    forall i, j | 0 <= i < j < |r| && r[j].Name() in NameSet(core) :: r[i].Name() in NameSet(core)
  }

  lemma ClosedCoreIsPrefix(core: seq<ChartConfig>, solution: seq<ChartConfig>) returns (n: nat)
    requires Sorted(core + solution).Ok? && CoreClosed(core, solution)
    ensures n <= |Sorted(core + solution).value|
    ensures NameSet(Sorted(core + solution).value[..n]) == NameSet(core)
  {
    var configs := core + solution;
    n := RootsPrefix(configs, |core|);
    GraphOfEntries(configs);
    var prefix := NameSet(Sorted(configs).value[..n]);
    forall name | name in prefix ensures name in NameSet(core) {
      var q :| 0 <= q < |core| && Reaches(GraphOf(configs), configs[q].Name(), name);
      assert configs[q] in core;
    }
    forall name | name in NameSet(core) ensures name in prefix {
      var k := Position(core, name);
      assert configs[k] in configs;
      ReachesRefl(GraphOf(configs), name);
      assert FromRoots(configs, |core|, name);
    }
  }

  /** All core charts come before all charts that only the solution has exactly when no core chart depends, directly or
      not, on such a chart. */
  lemma CoreFirstIff(core: seq<ChartConfig>, solution: seq<ChartConfig>)
    requires Sorted(core + solution).Ok?
    ensures CoreFirst(core, Sorted(core + solution).value) <==> CoreClosed(core, solution)
  {
    var g, r := GraphOf(core + solution), Sorted(core + solution).value;
    SortedIsOrder(core + solution);
    if CoreClosed(core, solution) {
      var n := ClosedCoreIsPrefix(core, solution);
      forall i, j | 0 <= i < j < |r| && r[j].Name() in NameSet(core) ensures r[i].Name() in NameSet(core) {
        var m := Position(r[..n], r[j].Name());
        assert m == j;
        assert r[..n][i] in r[..n];
      }
    }
    if CoreFirst(core, r) {
      forall a, b | a in NameSet(core) && Reaches(g, a, b) ensures b in NameSet(core) {
        var p :| IsPath(g, p) && p[0] == a && p[|p| - 1] == b;
        var i := Position(r, a);
        var j := Position(r, b);
        PathOrder(g, r, p, i, j);
      }
    }
  }

  /** A core chart that depends on a solution chart is ordered after it, although core charts are listed first. */
  lemma SolutionMayComeFirst() returns (core: seq<ChartConfig>, solution: seq<ChartConfig>)
    ensures Sorted(core + solution) == Ok(solution + core) && !CoreFirst(core, solution + core)
  {
    var c := Chart("", "core", "1", "", "", Plain(""), map[], [Dependency("solution", true)]);
    var s := c.(chart := "solution", dependsOn := []);
    core, solution := [ChartConfig(c, None, NO_RUNTIME)], [ChartConfig(s, None, NO_RUNTIME)];
    var configs := core + solution;
    assert configs == [core[0], solution[0]];
    assert DistinctNames(configs);
    GraphOfDistinct(configs);
    GraphOfEntries(configs);
    var g := GraphOf(configs);
    assert configs[0].Name() == "core" && configs[1].Name() == "solution";
    assert g["core"] == core[0] && g["solution"] == solution[0];
    assert HelmNames(s.dependsOn) == [] && HelmNames(c.dependsOn) == ["solution"];
    var st := Dfs({}, {} + {"core"}, []);
    assert (st.inProgress + {"solution"}) - {"solution"} == st.inProgress;
    assert Explore(g, "solution", st) == Some(Dfs({} + {"solution"}, st.inProgress, [] + solution));
    var seen := Dfs({} + {"solution"}, st.inProgress, [] + solution);
    ExploreAllNoop(g, [], seen);
    assert ExploreAll(g, ["solution"], st) == Some(seen);
    assert seen.visited + {"core"} == {"solution", "core"} && seen.inProgress - {"core"} == {};
    assert seen.result + core == solution + core;
    assert Explore(g, "core", START) == Some(Dfs({"solution", "core"}, {}, solution + core));
    ExploreAllNoop(g, ["solution"], Dfs({"solution", "core"}, {}, solution + core));
    assert Names(configs) == ["core", "solution"];
    assert Names(configs)[1..] == ["solution"];
    assert core[0] in core;
    assert "solution" !in NameSet(core);
    assert (solution + core)[0].Name() == "solution" && (solution + core)[1].Name() == "core";
  }

  // ---------------------------------------------------------------- the order does not depend on values

  function CachedGraph(g: Graph): Graph {
    map n | n in g :: g[n].Cached()
  }

  function CachedDfs(r: Option<Dfs>): Option<Dfs> {
    if r.None? then None else Some(r.value.(result := CachedConfigs(r.value.result)))
  }

  lemma CachedGraphPut(g: Graph, t: ChartConfig)
    ensures CachedGraph(g[t.Name() := t]) == CachedGraph(g)[t.Name() := t.Cached()]
  {
  }

  lemma {:induction false} GraphOfCached(configs: seq<ChartConfig>)
    ensures GraphOf(CachedConfigs(configs)) == CachedGraph(GraphOf(configs))
  {
    if configs != [] {
      var n := |configs| - 1;
      GraphOfCached(configs[..n]);
      assert CachedConfigs(configs)[..n] == CachedConfigs(configs[..n]);
      CachedGraphPut(GraphOf(configs[..n]), configs[n]);
    }
  }

  lemma {:induction false} ExploreCached(g: Graph, name: string, st: Dfs)
    ensures Explore(CachedGraph(g), name, CachedDfs(Some(st)).value) == CachedDfs(Explore(g, name, st))
    decreases g.Keys - st.inProgress, 0
  {
    if name !in st.inProgress && name !in st.visited && name in g {
      var deps := HelmNames(g[name].chart.dependsOn);
      var entered := st.(inProgress := st.inProgress + {name});
      ExploreAllCached(g, deps, entered);
      if ExploreAll(g, deps, entered).Some? {
        var s := ExploreAll(g, deps, entered).value;
        assert CachedConfigs(s.result + [g[name]]) == CachedConfigs(s.result) + [g[name].Cached()];
      }
    }
  }

  lemma {:induction false} ExploreAllCached(g: Graph, names: seq<string>, st: Dfs)
    ensures ExploreAll(CachedGraph(g), names, CachedDfs(Some(st)).value) == CachedDfs(ExploreAll(g, names, st))
    decreases g.Keys - st.inProgress, |names| + 1
  {
    if names != [] {
      ExploreCached(g, names[0], st);
      if Explore(g, names[0], st).Some? {
        ExploreAllCached(g, names[1..], Explore(g, names[0], st).value);
      }
    }
  }

  /** Charts configured from a cached manifest are upgraded in the same order as from the manifest itself. */
  lemma SortedCached(configs: seq<ChartConfig>)
    ensures Sorted(CachedConfigs(configs)) ==
            if Sorted(configs).Err? then Sorted(configs) else Ok(CachedConfigs(Sorted(configs).value))
  {
    GraphOfCached(configs);
    assert Names(CachedConfigs(configs)) == Names(configs);
    assert CachedDfs(Some(START)) == Some(START);
    ExploreAllCached(GraphOf(configs), Names(configs), START);
  }
}
