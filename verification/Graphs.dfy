/** Service dependencies, their ranking and the choice of a leader (compose/graph.go). */
module Graphs {
  import opened Wrappers
  import opened Json
  import opened Sorting
  import opened Sets

  /** From a service to the services it depends on, in order. */
  type Graph = map<string, seq<string>>
  type Depths = map<string, nat>

  // ----- The graph of a compose file

  /** The strings of a list, in order; anything else in it is skipped. */
  function Strings(items: seq<Json>): seq<string> {
    if items == [] then []
    else
      var rest := Strings(items[..|items| - 1]);
      match items[|items| - 1]
      case Str(s) => rest + [s]
      case _ => rest
  }

  function DependsOn(service: Json): seq<string> {
    if service.Obj? && "depends_on" in service.fields && service.fields["depends_on"].Arr?
    then Strings(service.fields["depends_on"].items)
    else []
  }

  /** The graph has exactly the services with a dependency. */
  ghost predicate IsGraphOf(g: Graph, services: map<string, Json>) {
    && (forall k :: k in g <==> k in services && DependsOn(services[k]) != [])
    && (forall k :: k in g ==> g[k] == DependsOn(services[k]))
  }

  /** `deps` are the strings among the items, in order, at the places `places`. */
  ghost predicate StringsAt(items: seq<Json>, deps: seq<string>, places: seq<nat>) {
    && |places| == |deps|
    && (forall i, j :: 0 <= i < j < |places| ==> places[i] < places[j])
    && (forall i :: 0 <= i < |places| ==> places[i] < |items| && items[places[i]] == Str(deps[i]))
    && (forall p :: 0 <= p < |items| && items[p].Str? ==> IsPlace(places, p))
  }

  ghost predicate IsPlace(places: seq<nat>, p: int) {
    exists i :: 0 <= i < |places| && places[i] == p
  }

  /** One more string. */
  lemma OneMoreString(items: seq<Json>, deps: seq<string>, places: seq<nat>, item: Json)
    requires StringsAt(items, deps, places) && item.Str?
    ensures StringsAt(items + [item], deps + [item.s], places + [|items|])
  {
    var items', places' := items + [item], places + [|items|];
    forall p | 0 <= p < |items'| && items'[p].Str? ensures IsPlace(places', p) {
      if p < |items| {
        assert IsPlace(places, p);
        var i :| 0 <= i < |places| && places[i] == p;
        assert places'[i] == p;
      } else {
        assert places'[|places|] == p;
      }
    }
  }

  /** One more item that is no string. */
  lemma OneMoreOther(items: seq<Json>, deps: seq<string>, places: seq<nat>, item: Json)
    requires StringsAt(items, deps, places) && !item.Str?
    ensures StringsAt(items + [item], deps, places)
  {
    forall p | 0 <= p < |items + [item]| && (items + [item])[p].Str? ensures IsPlace(places, p) {
      assert p < |items| && items[p].Str?;
    }
  }

  lemma {:induction false} StringsHavePlaces(items: seq<Json>) returns (places: seq<nat>)
    ensures StringsAt(items, Strings(items), places)
  {
    if items == [] {
      places := [];
    } else {
      var rest, last := items[..|items| - 1], items[|items| - 1];
      places := StringsHavePlaces(rest);
      assert items == rest + [last];
      if last.Str? {
        OneMoreString(rest, Strings(rest), places, last);
        places := places + [|rest|];
      } else {
        OneMoreOther(rest, Strings(rest), places, last);
      }
    }
  }

  /** The list of dependencies of a service, if it has one. */
  predicate HasList(service: Json) {
    service.Obj? && "depends_on" in service.fields && service.fields["depends_on"].Arr?
  }

  /** A service is in the graph if and only if its list has a string, with the strings of the list in order. */
  ghost predicate Describes(g: Graph, services: map<string, Json>) {
    && (forall k :: k in g ==>
          && k in services && HasList(services[k]) && g[k] != []
          && exists places :: StringsAt(services[k].fields["depends_on"].items, g[k], places))
    && (forall k :: k in services && HasList(services[k])
                    && (exists p: nat :: p < |services[k].fields["depends_on"].items|
                                         && services[k].fields["depends_on"].items[p].Str?)
                    ==> k in g)
  }

  lemma GraphDescribes(g: Graph, services: map<string, Json>)
    requires IsGraphOf(g, services)
    ensures Describes(g, services)
  {
    forall k | k in g
      ensures exists places :: StringsAt(services[k].fields["depends_on"].items, g[k], places)
    {
      var places := StringsHavePlaces(services[k].fields["depends_on"].items);
    }
    forall k | k in services && HasList(services[k])
               && (exists p: nat :: p < |services[k].fields["depends_on"].items|
                                    && services[k].fields["depends_on"].items[p].Str?)
      ensures k in g
    {
      var places := StringsHavePlaces(services[k].fields["depends_on"].items);
      assert places != [];
    }
  }

  method NewServiceGraph(services: map<string, Json>) returns (graph: Graph)
    ensures IsGraphOf(graph, services) && Describes(graph, services)
  {
    graph := map[];
    var todo := services.Keys;
    while todo != {}
      invariant todo <= services.Keys
      invariant forall k :: k in graph <==> k in services && k !in todo && DependsOn(services[k]) != []
      invariant forall k :: k in graph ==> ListOf(graph, k) == DependsOn(services[k])
    {
      var service :| service in todo;
      todo := todo - {service};
      var data := services[service];
      if !data.Obj? || "depends_on" !in data.fields || !data.fields["depends_on"].Arr? {
        continue;
      }
      var deps := data.fields["depends_on"].items;
      graph := AppendDeps(graph, service, deps);
    }
    GraphDescribes(graph, services);
  }

  /** A nil slice is the list of a missing key. */
  function ListOf(g: Graph, k: string): seq<string> {
    if k in g then g[k] else []
  }

  method AppendDeps(graph: Graph, service: string, deps: seq<Json>) returns (graph': Graph)
    requires service !in graph
    ensures graph' == if Strings(deps) == [] then graph else graph[service := Strings(deps)]
  {
    graph' := graph;
    for i := 0 to |deps|
      invariant graph' == if Strings(deps[..i]) == [] then graph else graph[service := Strings(deps[..i])]
    {
      assert deps[..i + 1][..i] == deps[..i];
      if deps[i].Str? {
        graph' := graph'[service := ListOf(graph', service) + [deps[i].s]];
      }
    }
    assert deps[..|deps|] == deps;
  }

  // ----- Acyclic graphs

  ghost predicate Link(g: Graph, a: string, b: string) {
    a in g && b in g && b in g[a]
  }

  ghost predicate Walk(g: Graph, w: seq<string>) {
    && (forall i :: 0 <= i < |w| ==> w[i] in g)
    && (forall i :: 0 <= i < |w| - 1 ==> Link(g, w[i], w[i + 1]))
  }

  ghost predicate Cycle(g: Graph, w: seq<string>) {
    Walk(g, w) && |w| > 1 && w[0] == w[|w| - 1]
  }

  ghost predicate Acyclic(g: Graph) {
    forall w :: !Cycle(g, w)
  }

  /** A dependency ranks below the service that depends on it. */
  ghost predicate Ranks(g: Graph, rank: map<string, nat>) {
    && rank.Keys == g.Keys
    && (forall a, b :: Link(g, a, b) ==> rank[b] < rank[a])
  }

  /** A walk without a repeated service is no longer than the graph has services. */
  lemma {:induction false} DistinctWalk(g: set<string>, w: seq<string>)
    requires forall i :: 0 <= i < |w| ==> w[i] in g
    requires forall i, j :: 0 <= i < j < |w| ==> w[i] != w[j]
    ensures |w| <= |g|
  {
    if w != [] {
      DistinctWalk(g - {w[0]}, w[1..]);
    }
  }

  lemma ShortWalks(g: Graph, w: seq<string>)
    requires Acyclic(g) && Walk(g, w)
    ensures |w| <= |g|
  {
    if i, j :| 0 <= i < j < |w| && w[i] == w[j] {
      assert Cycle(g, w[i..j + 1]);
      assert false;
    }
    assert |g| == |g.Keys|;
    DistinctWalk(g.Keys, w);
  }

  ghost predicate Sink(g: Graph, k: string) {
    k in g && forall b :: !Link(g, k, b)
  }

  /** Without a sink, walks of any length exist. */
  lemma {:induction false} EndlessWalk(g: Graph, n: nat) returns (w: seq<string>)
    requires |g| > 0 && forall k :: !Sink(g, k)
    ensures Walk(g, w) && |w| == n + 1
  {
    if n == 0 {
      var k :| k in g.Keys;
      w := [k];
    } else {
      w := EndlessWalk(g, n - 1);
      assert !Sink(g, w[n - 1]);
      var b :| Link(g, w[n - 1], b);
      w := w + [b];
    }
  }

  lemma SinkExists(g: Graph) returns (k: string)
    requires Acyclic(g) && |g| > 0
    ensures Sink(g, k)
  {
    if forall k :: !Sink(g, k) {
      var w := EndlessWalk(g, |g|);
      ShortWalks(g, w);
      assert false;
    }
    k :| Sink(g, k);
  }

  lemma CycleLifts(g: Graph, part: Graph, w: seq<string>)
    requires part.Keys <= g.Keys && (forall k :: k in part ==> part[k] == g[k]) && Cycle(part, w)
    ensures Cycle(g, w)
  {
    assert forall i :: 0 <= i < |w| - 1 ==> Link(part, w[i], w[i + 1]);
  }

  lemma SelfLoop(g: Graph, k: string)
    requires Link(g, k, k)
    ensures Cycle(g, [k, k])
  {
  }

  /** An acyclic graph has a ranking, with ranks below the number of its services. */
  lemma {:induction false} RankingExists(g: Graph) returns (rank: map<string, nat>)
    requires Acyclic(g)
    ensures Ranks(g, rank) && forall k :: k in rank ==> rank[k] < |g|
    decreases |g|
  {
    if |g| == 0 {
      rank := map[];
    } else {
      var sink := SinkExists(g);
      var g' := g - {sink};
      forall w ensures !Cycle(g', w) {
        if Cycle(g', w) {
          CycleLifts(g, g', w);
          assert false;
        }
      }
      assert g'.Keys == g.Keys - {sink};
      assert |g'| == |g'.Keys| && |g| == |g.Keys|;
      var rank' := RankingExists(g');
      rank := map k | k in g.Keys :: if k == sink then 0 else rank'[k] + 1;
      forall a, b | Link(g, a, b) ensures rank[b] < rank[a] {
        assert !Sink(g, a);
        if b != sink {
          assert Link(g', a, b);
        }
      }
    }
  }

  // ----- Paths to leaves, an independent count

  /** From `k`, the dependencies at these places lead to a leaf: a service without dependencies. */
  ghost predicate IsPath(g: Graph, k: string, p: seq<nat>)
    decreases |p|
  {
    if k !in g then p == [] else p != [] && p[0] < |g[k]| && IsPath(g, g[k][p[0]], p[1..])
  }

  ghost predicate CountsPaths(g: Graph, k: string, n: nat) {
    exists ps: set<seq<nat>> :: |ps| == n && AllPaths(g, k, ps)
  }

  ghost predicate AllPaths(g: Graph, k: string, ps: set<seq<nat>>) {
    forall p :: p in ps <==> IsPath(g, k, p)
  }

  /** Every service with its number of paths. */
  ghost predicate AreDepths(g: Graph, d: Depths) {
    d.Keys == g.Keys && forall k :: k in d ==> CountsPaths(g, k, d[k])
  }

  lemma CountIsUnique(g: Graph, k: string, m: nat, n: nat)
    requires CountsPaths(g, k, m) && CountsPaths(g, k, n)
    ensures m == n
  {
    var ps :| |ps| == m && AllPaths(g, k, ps);
    var qs :| |qs| == n && AllPaths(g, k, qs);
    assert ps == qs;
  }

  /** The iteration order leaves no trace in the result. */
  lemma DepthsAreUnique(g: Graph, d: Depths, e: Depths)
    requires AreDepths(g, d) && AreDepths(g, e)
    ensures d == e
  {
    forall k | k in d ensures d[k] == e[k] {
      CountIsUnique(g, k, d[k], e[k]);
    }
  }

  ghost function Prefixed(i: nat, ps: set<seq<nat>>): set<seq<nat>> {
    set p | p in ps :: [i] + p
  }

  lemma {:induction false} PrefixedSize(i: nat, ps: set<seq<nat>>)
    ensures |Prefixed(i, ps)| == |ps|
  {
    if ps == {} {
      assert Prefixed(i, ps) == {};
    } else {
      var p :| p in ps;
      PrefixedSize(i, ps - {p});
      assert [i] + p !in Prefixed(i, ps - {p}) by {
        forall q | q in ps - {p} ensures [i] + q != [i] + p {
          assert ([i] + q)[1..] == q && ([i] + p)[1..] == p;
        }
      }
      assert Prefixed(i, ps) == Prefixed(i, ps - {p}) + {[i] + p};
    }
  }

  lemma PrefixedMember(i: nat, ps: set<seq<nat>>, p: seq<nat>)
    ensures p in Prefixed(i, ps) <==> p != [] && p[0] == i && p[1..] in ps
  {
    if p != [] && p[0] == i {
      assert [i] + p[1..] == p;
    }
    forall q | q in ps && [i] + q == p ensures p != [] && p[1..] == q {
      assert ([i] + q)[1..] == q;
    }
  }

  /** Paths from `k` whose first step is one of the first `n` dependencies. */
  ghost predicate FirstPaths(g: Graph, k: string, n: nat, ps: set<seq<nat>>)
    requires k in g
  {
    forall p :: p in ps <==> IsPath(g, k, p) && p != [] && p[0] < n
  }

  /** The paths through the next dependency are as many as the paths from it. */
  lemma MorePaths(g: Graph, k: string, n: nat, ps: set<seq<nat>>, qs: set<seq<nat>>)
    requires k in g && n < |g[k]| && FirstPaths(g, k, n, ps) && AllPaths(g, g[k][n], qs)
    ensures var ps' := ps + Prefixed(n, qs);
            FirstPaths(g, k, n + 1, ps') && |ps'| == |ps| + |qs|
  {
    var ps' := ps + Prefixed(n, qs);
    forall p ensures p in ps' <==> IsPath(g, k, p) && p != [] && p[0] < n + 1 {
      PrefixedMember(n, qs, p);
    }
    forall p | p in ps ensures p !in Prefixed(n, qs) {
      PrefixedMember(n, qs, p);
    }
    assert ps !! Prefixed(n, qs);
    PrefixedSize(n, qs);
  }

  lemma OneMoreDependency(g: Graph, k: string, n: nat, ps: set<seq<nat>>, depth: nat) returns (ps': set<seq<nat>>)
    requires k in g && n < |g[k]| && FirstPaths(g, k, n, ps) && CountsPaths(g, g[k][n], depth)
    ensures FirstPaths(g, k, n + 1, ps') && |ps'| == |ps| + depth
  {
    var qs :| |qs| == depth && AllPaths(g, g[k][n], qs);
    MorePaths(g, k, n, ps, qs);
    ps' := ps + Prefixed(n, qs);
  }

  // ----- Memoised depth

  function Level(g: Graph, rank: map<string, nat>, k: string): nat
    requires rank.Keys == g.Keys
  {
    if k in g then rank[k] + 1 else 0
  }

  /** The source's recursion; `rank` is there for its termination only. */
  function DepthOf(g: Graph, ghost rank: map<string, nat>, index: string, memory: Depths): nat
    requires Ranks(g, rank)
    decreases Level(g, rank, index), |ListOf(g, index)| + 1
  {
    if index !in g then 1
    else if index in memory then memory[index]
    else SumOf(g, rank, index, |g[index]|, memory)
  }

  /** The sum over the first `n` dependencies. */
  function SumOf(g: Graph, ghost rank: map<string, nat>, index: string, n: nat, memory: Depths): nat
    requires Ranks(g, rank) && index in g && n <= |g[index]|
    decreases Level(g, rank, index), n
  {
    if n == 0 then 0
    else
      var child := g[index][n - 1];
      assert child in g ==> Link(g, index, child);
      SumOf(g, rank, index, n - 1, memory) + DepthOf(g, rank, child, memory)
  }

  /** A memo that is right as far as it goes. */
  ghost predicate GoodMemo(g: Graph, memory: Depths) {
    forall k :: k in memory && k in g ==> CountsPaths(g, k, memory[k])
  }

  /** Whatever part of the memo is filled, the recursion counts the paths to leaves. */
  lemma {:induction false} DepthCountsPaths(g: Graph, rank: map<string, nat>, k: string, memory: Depths)
    requires Ranks(g, rank) && GoodMemo(g, memory)
    ensures CountsPaths(g, k, DepthOf(g, rank, k, memory))
    decreases Level(g, rank, k), |ListOf(g, k)| + 1
  {
    if k !in g {
      var ps: set<seq<nat>> := {[]};
      assert AllPaths(g, k, ps) && |ps| == 1;
    } else if k !in memory {
      var ps := SumCountsPaths(g, rank, k, |g[k]|, memory);
      assert AllPaths(g, k, ps);
    }
  }

  lemma {:induction false} SumCountsPaths(g: Graph, rank: map<string, nat>, k: string, n: nat, memory: Depths)
    returns (ps: set<seq<nat>>)
    requires Ranks(g, rank) && GoodMemo(g, memory) && k in g && n <= |g[k]|
    ensures FirstPaths(g, k, n, ps) && |ps| == SumOf(g, rank, k, n, memory)
    decreases Level(g, rank, k), n
  {
    if n == 0 {
      ps := {};
    } else {
      var child := g[k][n - 1];
      assert child in g ==> Link(g, k, child);
      var depth := DepthOf(g, rank, child, memory);
      ps := SumCountsPaths(g, rank, k, n - 1, memory);
      DepthCountsPaths(g, rank, child, memory);
      ps := OneMoreDependency(g, k, n - 1, ps, depth);
    }
  }

  /** The keys come in any order, and each one fills the memo for the next ones. */
  method ByServiceDepth(g: Graph) returns (d: Depths)
    requires Acyclic(g)
    ensures AreDepths(g, d)
  {
    ghost var rank := RankingExists(g);
    d := map[];
    var todo := g.Keys;
    while todo != {}
      invariant todo <= g.Keys && d.Keys == g.Keys - todo
      invariant forall k :: k in d ==> CountsPaths(g, k, d[k])
    {
      var k :| k in todo;
      DepthCountsPaths(g, rank, k, d);
      d := d[k := DepthOf(g, rank, k, d)];
      todo := todo - {k};
    }
  }

  // ----- Without acyclicity

  /** The same recursion, given up below a nesting of `fuel` calls. */
  function Explore(g: Graph, memory: Depths, index: string, fuel: nat): Option<nat>
    decreases fuel, 0
  {
    if index !in g then Some(1)
    else if index in memory then Some(memory[index])
    else if fuel == 0 then None
    else ExploreAll(g, memory, g[index], fuel - 1)
  }

  function ExploreAll(g: Graph, memory: Depths, ks: seq<string>, fuel: nat): Option<nat>
    decreases fuel, |ks|
  {
    if ks == [] then Some(0)
    else
      var last := |ks| - 1;
      match (ExploreAll(g, memory, ks[..last], fuel), Explore(g, memory, ks[last], fuel))
      case (Some(m), Some(n)) => Some(m + n)
      case _ => None
  }

  /** With enough nesting it answers what the unbounded recursion answers. */
  lemma {:induction false} ExploreIsDepth(g: Graph, rank: map<string, nat>, memory: Depths, k: string, fuel: nat)
    requires Ranks(g, rank) && Level(g, rank, k) <= fuel
    ensures Explore(g, memory, k, fuel) == Some(DepthOf(g, rank, k, memory))
    decreases fuel, 0
  {
    if k in g && k !in memory {
      ExploreIsSum(g, rank, memory, k, |g[k]|, fuel - 1);
      assert g[k][..|g[k]|] == g[k];
    }
  }

  lemma {:induction false} ExploreIsSum(g: Graph, rank: map<string, nat>, memory: Depths, k: string, n: nat, fuel: nat)
    requires Ranks(g, rank) && k in g && n <= |g[k]| && rank[k] <= fuel
    ensures ExploreAll(g, memory, g[k][..n], fuel) == Some(SumOf(g, rank, k, n, memory))
    decreases fuel, n
  {
    if n > 0 {
      var child := g[k][n - 1];
      assert child in g ==> Link(g, k, child);
      assert g[k][..n][..n - 1] == g[k][..n - 1];
      ExploreIsSum(g, rank, memory, k, n - 1, fuel);
      ExploreIsDepth(g, rank, memory, child, fuel);
    }
  }

  lemma {:induction false} MissingPart(g: Graph, memory: Depths, ks: seq<string>, i: nat, fuel: nat)
    requires i < |ks| && Explore(g, memory, ks[i], fuel).None?
    ensures ExploreAll(g, memory, ks, fuel).None?
  {
    if i < |ks| - 1 {
      MissingPart(g, memory, ks[..|ks| - 1], i, fuel);
    }
  }

  /** No nesting is enough on a cycle that the memo does not cut. */
  lemma {:induction false} CycleNeverReturns(g: Graph, memory: Depths, w: seq<string>, i: nat, fuel: nat)
    requires Cycle(g, w) && i < |w| && forall j :: 0 <= j < |w| ==> w[j] !in memory
    ensures Explore(g, memory, w[i], fuel).None?
    decreases fuel
  {
    if fuel > 0 {
      var j := if i == |w| - 1 then 0 else i;
      assert Link(g, w[j], w[j + 1]);
      var c :| 0 <= c < |g[w[j]]| && g[w[j]][c] == w[j + 1];
      CycleNeverReturns(g, memory, w, j + 1, fuel - 1);
      MissingPart(g, memory, g[w[j]], c, fuel - 1);
    }
  }

  /** The loop of ByServiceDepth over the keys in a given order, with the memo it fills; None when a nesting of
      `fuel` calls was not enough. */
  function RankAll(g: Graph, order: seq<string>, memory: Depths, fuel: nat): Option<Depths>
    decreases |order|
  {
    if order == [] then Some(memory)
    else
      match Explore(g, memory, order[0], fuel)
      case None => None
      case Some(depth) => RankAll(g, order[1..], memory[order[0] := depth], fuel)
  }

  /** No order and no nesting gets past a cycle: none of its services ever enters the memo. */
  lemma {:induction false} CycleStopsRanking(g: Graph, order: seq<string>, memory: Depths, fuel: nat, w: seq<string>)
    requires Cycle(g, w) && (forall j :: 0 <= j < |w| ==> w[j] !in memory) && w[0] in order
    ensures RankAll(g, order, memory, fuel).None?
    decreases |order|
  {
    if i :| 0 <= i < |w| && w[i] == order[0] {
      CycleNeverReturns(g, memory, w, i, fuel);
    } else {
      assert w[0] in order[1..];
      match Explore(g, memory, order[0], fuel)
      case None =>
      case Some(depth) => CycleStopsRanking(g, order[1..], memory[order[0] := depth], fuel, w);
    }
  }

  lemma {:induction false} RankingSucceeds(
    g: Graph, rank: map<string, nat>, order: seq<string>, memory: Depths, fuel: nat)
    requires Ranks(g, rank) && GoodMemo(g, memory) && memory.Keys <= g.Keys
    requires forall k :: k in order ==> k in g && Level(g, rank, k) <= fuel
    ensures var r := RankAll(g, order, memory, fuel);
            && r.Some? && GoodMemo(g, r.value)
            && (forall k :: k in r.value <==> k in memory || k in order)
    decreases |order|
  {
    if order != [] {
      var k := order[0];
      ExploreIsDepth(g, rank, memory, k, fuel);
      DepthCountsPaths(g, rank, k, memory);
      RankingSucceeds(g, rank, order[1..], memory[k := DepthOf(g, rank, k, memory)], fuel);
    }
  }

  /** For every order of the keys: the loop returns if and only if the graph has no cycle, and then it has the
      number of paths of every service, within a nesting of as many calls as there are services. */
  lemma RankingReturnsExactly(g: Graph, order: seq<string>)
    requires forall k :: k in order <==> k in g
    ensures (exists fuel: nat :: RankAll(g, order, map[], fuel).Some?) <==> Acyclic(g)
    ensures Acyclic(g) ==> RankAll(g, order, map[], |g|).Some? && AreDepths(g, RankAll(g, order, map[], |g|).value)
  {
    if Acyclic(g) {
      var rank := RankingExists(g);
      RankingSucceeds(g, rank, order, map[], |g|);
    } else {
      var w :| Cycle(g, w);
      forall fuel: nat ensures RankAll(g, order, map[], fuel).None? {
        CycleStopsRanking(g, order, map[], fuel, w);
      }
    }
  }

  // ----- The leader

  datatype Problem = EmptyGraph | Ambiguity(first: string, second: string)
  datatype Entry = Entry(key: string, value: nat)

  function Descending(e: Entry): int {
    -(e.value as int)
  }

  /** Byte order of strings. */
  predicate Before(a: string, b: string) {
    a == "" || (b != "" && (a[0] < b[0] || (a[0] == b[0] && Before(a[1..], b[1..]))))
  }

  lemma {:induction false} BeforeIsTotal(a: string, b: string)
    ensures Before(a, b) || Before(b, a)
    ensures Before(a, b) && Before(b, a) ==> a == b
  {
    if a != "" && b != "" && a[0] == b[0] {
      BeforeIsTotal(a[1..], b[1..]);
      assert a == [a[0]] + a[1..] && b == [b[0]] + b[1..];
    }
  }

  /** It is the order of the first difference, and a prefix comes first. */
  lemma {:induction false} BeforeIsByteOrder(a: string, b: string)
    ensures Before(a, b) <==> a <= b || DiffersUp(a, b)
    decreases |a|
  {
    if a != "" && b != "" && a[0] == b[0] {
      BeforeIsByteOrder(a[1..], b[1..]);
      HeadAgrees(a, b);
    } else if a != "" && b != "" && a[0] < b[0] {
      assert a[..0] == b[..0];
      assert DiffersUp(a, b);
    } else if a != "" && b != "" && DiffersUp(a, b) {
      UpAtHead(a, b);
    }
  }

  lemma UpAtHead(a: string, b: string)
    requires a != "" && b != "" && DiffersUp(a, b)
    ensures a[0] <= b[0]
  {
    var i :| 0 <= i < |a| && i < |b| && a[..i] == b[..i] && a[i] < b[i];
    if i > 0 {
      assert a[..i][0] == b[..i][0];
    }
  }

  ghost predicate DiffersUp(a: string, b: string) {
    exists i :: 0 <= i < |a| && i < |b| && a[..i] == b[..i] && a[i] < b[i]
  }

  lemma HeadAgrees(a: string, b: string)
    requires a != "" && b != "" && a[0] == b[0]
    ensures a <= b <==> a[1..] <= b[1..]
    ensures DiffersUp(a, b) <==> DiffersUp(a[1..], b[1..])
  {
    assert a == [a[0]] + a[1..] && b == [b[0]] + b[1..];
    if i :| 0 <= i < |a| && i < |b| && a[..i] == b[..i] && a[i] < b[i] {
      assert a[1..][..i - 1] == a[..i][1..] && b[1..][..i - 1] == b[..i][1..];
      assert a[1..][i - 1] < b[1..][i - 1];
    }
    if i :| 0 <= i < |a[1..]| && i < |b[1..]| && a[1..][..i] == b[1..][..i] && a[1..][i] < b[1..][i] {
      assert a[..i + 1] == [a[0]] + a[1..][..i] && b[..i + 1] == [b[0]] + b[1..][..i];
      assert a[i + 1] < b[i + 1];
    }
  }

  ghost predicate IsMax(d: Depths, k: string) {
    k in d && forall j :: j in d ==> d[j] <= d[k]
  }

  ghost predicate StrictMax(d: Depths, k: string) {
    k in d && forall j :: j in d && j != k ==> d[j] < d[k]
  }

  ghost predicate Leads(d: Depths, r: Result<string, Problem>) {
    match r
    case Ok(k) => StrictMax(d, k)
    case Err(EmptyGraph) => |d| == 0
    case Err(Ambiguity(a, b)) => a != b && Before(a, b) && IsMax(d, a) && IsMax(d, b)
  }

  /** The answer is a leader if and only if there is a strict maximum. */
  method FindLeader(d: Depths) returns (r: Result<string, Problem>)
    ensures Leads(d, r)
    ensures r.Ok? <==> exists k :: StrictMax(d, k)
  {
    if |d| == 0 {
      return Err(EmptyGraph);
    }
    var entries := Entries(d);
    var tmp := SortBy(entries, Descending);
    SortedHead(d, entries, tmp);
    if |tmp| > 1 && tmp[0].value == tmp[1].value {
      var a, b := tmp[0].key, tmp[1].key;
      BeforeIsTotal(a, b);
      r := Err(if Before(a, b) then Ambiguity(a, b) else Ambiguity(b, a));
    } else {
      r := Ok(tmp[0].key);
    }
    LeadsExactly(d, r);
  }

  method Entries(d: Depths) returns (entries: seq<Entry>)
    ensures EntriesOf(d, entries)
  {
    entries := [];
    var todo := d.Keys;
    while todo != {}
      invariant todo <= d.Keys
      invariant forall e :: multiset(entries)[e] == if e.key in d && e.key !in todo && d[e.key] == e.value then 1 else 0
    {
      var k :| k in todo;
      entries := entries + [Entry(k, d[k])];
      todo := todo - {k};
    }
  }

  /** Each key once, with its value. */
  ghost predicate EntriesOf(d: Depths, entries: seq<Entry>) {
    forall e :: multiset(entries)[e] == if e.key in d && d[e.key] == e.value then 1 else 0
  }

  /** A permutation of the entries has the keys of the map, each one once. */
  lemma Permuted(d: Depths, entries: seq<Entry>, tmp: seq<Entry>)
    requires EntriesOf(d, entries) && multiset(tmp) == multiset(entries)
    ensures forall i :: 0 <= i < |tmp| ==> tmp[i].key in d && d[tmp[i].key] == tmp[i].value
    ensures forall k :: k in d ==> Entry(k, d[k]) in tmp
    ensures |tmp| > 1 ==> tmp[0] != tmp[1]
  {
    forall i | 0 <= i < |tmp| ensures tmp[i].key in d && d[tmp[i].key] == tmp[i].value {
      assert tmp[i] in multiset(tmp);
    }
    forall k | k in d ensures Entry(k, d[k]) in tmp {
      assert Entry(k, d[k]) in multiset(tmp);
    }
    if |tmp| > 1 {
      assert tmp == [tmp[0], tmp[1]] + tmp[2..];
      assert multiset(tmp)[tmp[0]] <= 1;
    }
  }

  /** The first two entries in descending order are two keys with the two highest values. */
  lemma SortedHead(d: Depths, entries: seq<Entry>, tmp: seq<Entry>)
    requires |d| > 0 && EntriesOf(d, entries) && multiset(tmp) == multiset(entries)
    requires SortedBy(tmp, Descending)
    ensures |tmp| > 0 && IsMax(d, tmp[0].key) && d[tmp[0].key] == tmp[0].value
    ensures |tmp| > 1 ==> tmp[1].key in d && d[tmp[1].key] == tmp[1].value && tmp[0].key != tmp[1].key
    ensures |tmp| == 1 || tmp[1].value < tmp[0].value ==> StrictMax(d, tmp[0].key)
  {
    Permuted(d, entries, tmp);
    var k0 :| k0 in d.Keys;
    assert Entry(k0, d[k0]) in tmp;
    forall j | j in d
      ensures d[j] <= tmp[0].value
      ensures |tmp| == 1 || tmp[1].value < tmp[0].value ==> j == tmp[0].key || d[j] < tmp[0].value
    {
      var i :| 0 <= i < |tmp| && tmp[i] == Entry(j, d[j]);
      if i > 0 {
        assert Descending(tmp[0]) <= Descending(tmp[i]);
        assert i > 1 ==> Descending(tmp[1]) <= Descending(tmp[i]);
      }
    }
  }

  lemma LeadsExactly(d: Depths, r: Result<string, Problem>)
    requires Leads(d, r)
    ensures r.Ok? <==> exists k :: StrictMax(d, k)
    ensures forall k :: StrictMax(d, k) ==> r == Ok(k)
  {
    forall k | StrictMax(d, k) ensures r == Ok(k) {
      match r
      case Ok(j) =>
      case Err(EmptyGraph) =>
        assert k in d.Keys;
      case Err(Ambiguity(a, b)) =>
    }
  }

  /** Whatever the order of the entries, the leader is the same, and so is the failure. */
  lemma LeaderIsUnique(d: Depths, r: Result<string, Problem>, s: Result<string, Problem>)
    requires Leads(d, r) && Leads(d, s)
    ensures r.Ok? <==> s.Ok?
    ensures r.Ok? ==> r == s
    ensures r == Err(EmptyGraph) <==> s == Err(EmptyGraph)
  {
    LeadsExactly(d, r);
    LeadsExactly(d, s);
    if r == Err(EmptyGraph) || s == Err(EmptyGraph) {
      assert d == map[];
    }
  }

  /** A service has at least as many paths as any of its dependencies. */
  lemma PathsOfDependency(g: Graph, d: Depths, k: string, c: string)
    requires AreDepths(g, d) && Link(g, k, c)
    ensures d[c] <= d[k]
  {
    var ps :| |ps| == d[k] && AllPaths(g, k, ps);
    var qs :| |qs| == d[c] && AllPaths(g, c, qs);
    var i :| 0 <= i < |g[k]| && g[k][i] == c;
    PrefixedSize(i, qs);
    forall p | p in Prefixed(i, qs) ensures p in ps {
      PrefixedMember(i, qs, p);
    }
    Subset(Prefixed(i, qs), ps);
  }

  /** The leader of an acyclic graph is never a dependency of another service. */
  lemma LeaderIsNoDependency(g: Graph, d: Depths, r: Result<string, Problem>, k: string)
    requires Acyclic(g) && AreDepths(g, d) && Leads(d, r) && r.Ok? && k in g
    ensures r.value !in g[k]
  {
    if r.value in g[k] {
      if k == r.value {
        SelfLoop(g, k);
        assert false;
      } else {
        PathsOfDependency(g, d, k, r.value);
        assert false;
      }
    }
  }
}
