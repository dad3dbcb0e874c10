/** Compose projects (src/compose.rs): the dependency labels, the project graph
    and the order a rollout follows. */
module Compose {
  import opened Wrappers
  import opened Text
  import opened Labels

  datatype Condition = Started | WaitHealthy | CompletedSuccessfully

  datatype Dependency = Dependency(service: string, condition: Condition, restart: bool)

  datatype ComposeInfo = ComposeInfo(project: string, service: string, dependsOn: seq<Dependency>)

  datatype ProjectMember = ProjectMember(
    name: string,
    id: string,
    imageRef: string,
    imageId: Option<string>,
    labels: LabelMap,
    running: bool)

  type Graph = map<string, seq<Dependency>>

  // ----- labels -----

  function ParseCondition(raw: string): Condition {
    if Trim(raw) == "service_healthy" then WaitHealthy
    else if Trim(raw) == "service_completed_successfully" then CompletedSuccessfully
    else Started
  }

  function ParseEntry(entry: string): Option<Dependency> {
    var fields := Split(entry, ':');
    var service := Trim(fields[0]);
    if service == "" then None
    else
      var condition := if |fields| > 1 then ParseCondition(fields[1]) else Started;
      var restart := |fields| > 2 && Normal(fields[2]) == "true";
      Some(Dependency(service, condition, restart))
  }

  function ParseEntries(parts: seq<string>): seq<Dependency> {
    if parts == [] then []
    else
      var rest := ParseEntries(parts[1..]);
      match ParseEntry(parts[0])
      case None => rest
      case Some(d) => [d] + rest
  }

  function ServiceOf(d: Dependency): string { d.service }

  /** Drops every entry that repeats the service of the one kept before it. */
  function DedupByService(deps: seq<Dependency>): seq<Dependency>
    decreases |deps|
  {
    if |deps| <= 1 then deps
    else if deps[0].service == deps[1].service then DedupByService([deps[0]] + deps[2..])
    else [deps[0]] + DedupByService(deps[1..])
  }

  function ParseDependsOn(raw: string): seq<Dependency> {
    DedupByService(SortBy(ServiceOf, ParseEntries(Split(raw, ','))))
  }

  function NonEmpty(labels: LabelMap, key: Key): Option<string> {
    if key in labels && Trim(labels[key]) != "" then Some(Trim(labels[key])) else None
  }

  function Parse(labels: LabelMap): Option<ComposeInfo> {
    if ComposeOneoff in labels && Normal(labels[ComposeOneoff]) == "true" then None
    else
      match (NonEmpty(labels, ComposeProject), NonEmpty(labels, ComposeService))
      case (Some(project), Some(service)) =>
        Some(ComposeInfo(project, service,
                         ParseDependsOn(if ComposeDependsOn in labels then labels[ComposeDependsOn] else "")))
      case _ => None
  }

  // ----- parsed dependencies are a function of the service -----

  ghost predicate StrictDeps(deps: seq<Dependency>) {
    forall i, j :: 0 <= i < j < |deps| ==> StrLess(deps[i].service, deps[j].service)
  }

  /** The first entry for a service, if there is one. */
  function FirstFor(deps: seq<Dependency>, service: string): Option<Dependency> {
    if deps == [] then None
    else if deps[0].service == service then Some(deps[0])
    else FirstFor(deps[1..], service)
  }

  lemma {:induction false} InsertKeepsFirst(d: Dependency, sorted: seq<Dependency>, service: string)
    ensures FirstFor(InsertBy(ServiceOf, d, sorted), service) == FirstFor([d] + sorted, service)
  {
    if sorted == [] || !StrLess(sorted[0].service, d.service) {
    } else {
      InsertKeepsFirst(d, sorted[1..], service);
      StrLessTrichotomy(sorted[0].service, d.service);
      assert ([d] + sorted)[1..] == sorted;
      assert ([d] + sorted[1..])[1..] == sorted[1..];
      assert InsertBy(ServiceOf, d, sorted)[1..] == InsertBy(ServiceOf, d, sorted[1..]);
    }
  }

  lemma {:induction false} SortKeepsFirst(deps: seq<Dependency>, service: string)
    ensures FirstFor(SortBy(ServiceOf, deps), service) == FirstFor(deps, service)
  {
    if deps != [] {
      SortKeepsFirst(deps[1..], service);
      InsertKeepsFirst(deps[0], SortBy(ServiceOf, deps[1..]), service);
      assert ([deps[0]] + SortBy(ServiceOf, deps[1..]))[1..] == SortBy(ServiceOf, deps[1..]);
    }
  }

  lemma {:induction false} DedupKeeps(deps: seq<Dependency>, service: string)
    requires SortedBy(ServiceOf, deps)
    ensures StrictDeps(DedupByService(deps))
    ensures FirstFor(DedupByService(deps), service) == FirstFor(deps, service)
    ensures forall e :: e in DedupByService(deps) ==> e in deps
    ensures deps != [] ==> DedupByService(deps) != [] && DedupByService(deps)[0] == deps[0]
    decreases |deps|
  {
    if |deps| > 1 {
      if deps[0].service == deps[1].service {
        var shorter := [deps[0]] + deps[2..];
        DedupKeeps(shorter, service);
        assert shorter[1..] == deps[2..] == deps[1..][1..];
      } else {
        DedupKeeps(deps[1..], service);
        var rest := DedupByService(deps[1..]);
        var r := [deps[0]] + rest;
        assert r[1..] == rest;
        forall j | 0 <= j < |rest|
          ensures StrLess(deps[0].service, rest[j].service)
        {
          assert rest[j] in deps[1..];
          StrLessTrichotomy(deps[0].service, deps[1].service);
          StrLessTrichotomy(deps[0].service, rest[j].service);
          if j > 0 { StrLessTransitive(deps[0].service, deps[1].service, rest[j].service); }
        }
        forall i, j | 0 <= i < j < |r|
          ensures StrLess(r[i].service, r[j].service)
        {
          assert r[j] == rest[j - 1];
          if i > 0 { assert r[i] == rest[i - 1]; }
        }
      }
    }
  }

  /** A label parses to a list strictly sorted by service, in which the first
      entry written for a service is the one that counts. */
  lemma ParseDependsOnMeaning(raw: string, service: string)
    ensures StrictDeps(ParseDependsOn(raw))
    ensures FirstFor(ParseDependsOn(raw), service) == FirstFor(ParseEntries(Split(raw, ',')), service)
  {
    var entries := ParseEntries(Split(raw, ','));
    SortByKeeps(ServiceOf, entries);
    SortKeepsFirst(entries, service);
    DedupKeeps(SortBy(ServiceOf, entries), service);
  }

  /** A label with one dependency, to be awaited. */
  lemma OneAwaited(service: string, condition: string)
    requires ':' !in service && ',' !in service && Trim(service) == service != ""
    requires ':' !in condition && ',' !in condition && ParseCondition(condition) == CompletedSuccessfully
    ensures ParseDependsOn(service + ":" + condition) == [Dependency(service, CompletedSuccessfully, false)]
  {
    hide Split, Trim, ParseEntry, ParseCondition;
    var raw := service + ":" + condition;
    AwaitedEntry(service, condition);
    SplitJoin([raw], ',');
    EntryAlone(raw, ParseEntry(raw).value);
  }

  lemma AwaitedEntry(service: string, condition: string)
    requires ':' !in service && ':' !in condition && Trim(service) == service != ""
    requires ParseCondition(condition) == CompletedSuccessfully
    ensures ParseEntry(service + ":" + condition) == Some(Dependency(service, CompletedSuccessfully, false))
  {
    hide Split, Trim, ParseCondition;
    assert [service, condition][1..] == [condition];
    assert service + ":" + condition == Join([service, condition], ':');
    SplitJoin([service, condition], ':');
  }

  lemma EntryAlone(raw: string, d: Dependency)
    requires ParseEntry(raw) == Some(d)
    ensures DedupByService(SortBy(ServiceOf, ParseEntries([raw]))) == [d]
  {
    hide ParseEntry;
    assert [raw][1..] == [] && [d][1..] == [];
    assert ParseEntries([raw]) == [d] + ParseEntries([]);
    assert SortBy(ServiceOf, [d]) == InsertBy(ServiceOf, d, SortBy(ServiceOf, []));
  }

  lemma ParsesTo(labels: LabelMap, project: string, service: string)
    requires ComposeOneoff !in labels
    requires ComposeProject in labels && labels[ComposeProject] == project
    requires ComposeService in labels && labels[ComposeService] == service
    requires Trim(project) == project != "" && Trim(service) == service != ""
    ensures Parse(labels).Some? && Parse(labels).value.service == service
    ensures ComposeDependsOn in labels ==> Parse(labels).value.dependsOn == ParseDependsOn(labels[ComposeDependsOn])
  {
    hide Trim, ParseDependsOn;
  }

  // ----- the project graph -----

  /** The last member of a service decides. */
  function GraphOf(members: seq<ProjectMember>): Graph {
    if members == [] then map[]
    else
      var front := GraphOf(members[..|members| - 1]);
      match Parse(members[|members| - 1].labels)
      case None => front
      case Some(info) => front[info.service := info.dependsOn]
  }

  predicate Awaits(deps: seq<Dependency>, service: string) {
    exists i :: 0 <= i < |deps| && deps[i].service == service && deps[i].condition == CompletedSuccessfully
  }

  predicate AwaitedForCompletion(graph: Graph, service: string) {
    exists s :: s in graph && Awaits(graph[s], service)
  }

  // ----- the order -----

  type Edges = map<string, set<string>>

  /** The dependencies of each node that are nodes too; self-edges are dropped. */
  function Induced(nodes: set<string>, graph: Graph): Edges {
    map n | n in nodes :: InSet(nodes, graph, n)
  }

  function InSet(nodes: set<string>, graph: Graph, n: string): set<string> {
    if n !in graph then {}
    else
      set i | 0 <= i < |graph[n]| && graph[n][i].service in nodes && graph[n][i].service != n :: graph[n][i].service
  }

  /** A chain of `k` dependencies starts at `n`. */
  ghost predicate HasChain(edges: Edges, n: string, k: nat)
    decreases k
  {
    n in edges && (k == 0 || exists d :: d in edges[n] && HasChain(edges, d, k - 1))
  }

  /** The longest chain from `a` is shorter than that from `b`; a node that can
      reach a cycle has no longest chain and comes after all that have. */
  ghost predicate Shallower(edges: Edges, a: string, b: string) {
    exists k: nat :: !HasChain(edges, a, k) && HasChain(edges, b, k)
  }

  ghost predicate SameDepth(edges: Edges, a: string, b: string) {
    forall k: nat :: HasChain(edges, a, k) <==> HasChain(edges, b, k)
  }

  ghost predicate Endless(edges: Edges, n: string) {
    forall k: nat :: HasChain(edges, n, k)
  }

  /** By depth, then by name. */
  ghost predicate Before(edges: Edges, a: string, b: string) {
    Shallower(edges, a, b) || (SameDepth(edges, a, b) && StrLess(a, b))
  }

  ghost predicate OrderedBy(edges: Edges, order: seq<string>) {
    forall i, j :: 0 <= i < j < |order| ==> Before(edges, order[i], order[j])
  }

  lemma {:induction false} ChainShrinks(edges: Edges, n: string, k: nat, j: nat)
    requires HasChain(edges, n, k) && j <= k
    ensures HasChain(edges, n, j)
    decreases k
  {
    if 0 < j {
      var d :| d in edges[n] && HasChain(edges, d, k - 1);
      ChainShrinks(edges, d, k - 1, j - 1);
    }
  }

  lemma ChainStep(edges: Edges, n: string, k: nat)
    ensures HasChain(edges, n, k + 1) <==> Leads(edges, n, k)
  {
  }

  /** One of the dependencies of `n` starts a chain of `k`. */
  ghost predicate Leads(edges: Edges, n: string, k: nat) {
    n in edges && exists d :: d in edges[n] && HasChain(edges, d, k)
  }

  /** Some dependency of `n` is in `stuck`. */
  ghost predicate Held(edges: Edges, stuck: set<string>, n: string) {
    n in edges && exists d :: d in edges[n] && d in stuck
  }

  /** A set in which everybody waits for a member is endless. */
  lemma {:induction false} StuckIsEndless(edges: Edges, stuck: set<string>, n: string, k: nat)
    requires n in stuck && forall m {:trigger Held(edges, stuck, m)} :: m in stuck ==> Held(edges, stuck, m)
    ensures HasChain(edges, n, k)
    decreases k
  {
    hide HasChain;
    assert Held(edges, stuck, n);
    var d :| d in edges[n] && d in stuck;
    if k > 0 {
      StuckIsEndless(edges, stuck, d, k - 1);
      ChainStep(edges, n, k - 1);
    } else {
      ChainZero(edges, n);
    }
  }

  lemma ChainZero(edges: Edges, n: string)
    ensures HasChain(edges, n, 0) <==> n in edges
  {
  }

  /** Layer `k`: chains of length `k` start here, longer ones do not. */
  ghost predicate InLayer(edges: Edges, n: string, k: nat) {
    HasChain(edges, n, k) && !HasChain(edges, n, k + 1)
  }

  lemma SameLayer(edges: Edges, a: string, b: string, k: nat)
    requires InLayer(edges, a, k) && InLayer(edges, b, k)
    ensures SameDepth(edges, a, b)
  {
    forall j: nat
      ensures HasChain(edges, a, j) <==> HasChain(edges, b, j)
    {
      if j <= k {
        ChainShrinks(edges, a, k, j);
        ChainShrinks(edges, b, k, j);
      } else {
        if HasChain(edges, a, j) { ChainShrinks(edges, a, j, k + 1); }
        if HasChain(edges, b, j) { ChainShrinks(edges, b, j, k + 1); }
      }
    }
  }

  /** What the loop knows after `k` layers have been taken off. */
  ghost predicate Peeled(edges: Edges, pending: Edges, k: nat) {
    && (forall n :: n in pending <==> HasChain(edges, n, k))
    && (forall n :: n in pending ==> n in edges)
    && (forall n :: n in pending ==> forall d :: d in pending[n] <==> d in edges[n] && HasChain(edges, d, k))
  }

  /** `ready` is the set of nodes that wait for nothing. */
  ghost predicate IsReady(pending: Edges, ready: set<string>) {
    forall n {:trigger n in ready} :: n in ready <==> n in pending && pending[n] == {}
  }

  lemma PeelLayer(edges: Edges, pending: Edges, k: nat, ready: set<string>, rest: Edges)
    requires Peeled(edges, pending, k) && IsReady(pending, ready)
    requires rest == map n | n in pending && n !in ready :: pending[n] - ready
    ensures forall n :: n in ready <==> InLayer(edges, n, k)
    ensures Peeled(edges, rest, k + 1)
  {
    hide HasChain;
    forall n
      ensures n in rest <==> HasChain(edges, n, k + 1)
      ensures n in ready <==> InLayer(edges, n, k)
    {
      ChainStep(edges, n, k);
      ChainShrinks'(edges, n, k + 1, k);
      if n in pending { LeadsIsPending(edges, pending, k, n); }
    }
    forall n | n in rest
      ensures n in edges && forall d :: d in rest[n] <==> d in edges[n] && HasChain(edges, d, k + 1)
    {
      ChainShrinks'(edges, n, k, 0);
      ChainZero(edges, n);
      forall d
        ensures d in rest[n] <==> d in edges[n] && HasChain(edges, d, k + 1)
      {
        ChainShrinks'(edges, d, k + 1, k);
      }
    }
  }

  lemma ChainShrinks'(edges: Edges, n: string, k: nat, j: nat)
    requires j <= k
    ensures HasChain(edges, n, k) ==> HasChain(edges, n, j)
  {
    if HasChain(edges, n, k) { ChainShrinks(edges, n, k, j); }
  }

  lemma LeadsIsPending(edges: Edges, pending: Edges, k: nat, n: string)
    requires Peeled(edges, pending, k) && n in pending
    ensures Leads(edges, n, k) <==> pending[n] != {}
  {
    hide HasChain;
    ChainShrinks'(edges, n, k, 0);
    ChainZero(edges, n);
    if Leads(edges, n, k) {
      var d :| d in edges[n] && HasChain(edges, d, k);
      assert d in pending[n];
    }
    if pending[n] != {} {
      var d :| d in pending[n];
      assert d in edges[n] && HasChain(edges, d, k);
    }
  }

  /** Appending a sorted layer, or the sorted rest, keeps the order. */
  lemma AppendLayer(edges: Edges, order: seq<string>, layer: seq<string>, k: nat)
    requires OrderedBy(edges, order) && StrictlySorted(layer)
    requires forall n :: n in order ==> !HasChain(edges, n, k)
    requires forall n :: n in layer ==> HasChain(edges, n, k)
    requires forall a, b :: a in layer && b in layer ==> SameDepth(edges, a, b)
    ensures OrderedBy(edges, order + layer)
  {
    var all := order + layer;
    forall i, j | 0 <= i < j < |all|
      ensures Before(edges, all[i], all[j])
    {
      if j < |order| {
      } else if i < |order| {
        assert all[i] in order && all[j] in layer;
        assert Shallower(edges, all[i], all[j]);
      } else {
        assert all[i] == layer[i - |order|] && all[j] == layer[j - |order|];
      }
    }
  }

  ghost predicate HasCycle(edges: Edges) { exists n :: n in edges && Endless(edges, n) }

  /** `order` lists the nodes whose longest chain is shorter than `k`. */
  ghost predicate Listed(edges: Edges, order: seq<string>, k: nat) {
    forall n :: n in order <==> n in edges && !HasChain(edges, n, k)
  }

  /** Layer by layer, each in name order; what is left when no layer is free
      drains in name order. `cyclic` tells whether that happened. */
  method TopologicalOrder(nodes: seq<string>, graph: Graph) returns (ordered: seq<string>, cyclic: bool)
    ensures forall n :: n in ordered <==> n in nodes
    ensures OrderedBy(Induced((set n | n in nodes), graph), ordered)
    ensures cyclic <==> HasCycle(Induced((set n | n in nodes), graph))
  {
    hide HasChain, Peeled, OrderedBy, Listed, IsReady, HasCycle, InLayer, SameDepth, StrLess;
    var names := set n | n in nodes;
    var edges := Induced(names, graph);
    var pending := edges;
    ordered := [];
    ghost var k: nat := 0;
    NothingPeeled(names, graph);
    while pending != map[]
      invariant Peeled(edges, pending, k)
      invariant OrderedBy(edges, ordered)
      invariant Listed(edges, ordered, k)
      decreases |pending|
    {
      var ready := set n | n in pending && pending[n] == {};
      ReadyIsReady(pending, ready);
      if ready == {} {
        var stuck := SortedNames(pending.Keys);
        Stuck(edges, pending, k, ready);
        AddStuck(edges, pending, k, ordered, stuck);
        return ordered + stuck, true;
      }
      var layer := SortedNames(ready);
      var rest := map n | n in pending && n !in ready :: pending[n] - ready;
      PeelLayer(edges, pending, k, ready, rest);
      AddLayer(edges, pending, k, ready, ordered, layer);
      Fewer(pending, rest, ready);
      pending := rest;
      ordered := ordered + layer;
      k := k + 1;
    }
    AllPeeled(edges, k, ordered);
    return ordered, false;
  }

  lemma NothingPeeled(names: set<string>, graph: Graph)
    ensures
      var edges := Induced(names, graph);
      Peeled(edges, edges, 0) && OrderedBy(edges, []) && Listed(edges, [], 0)
  {
    var edges := Induced(names, graph);
    forall n, d | n in edges && d in edges[n]
      ensures d in edges
    {
      assert d in InSet(names, graph, n);
    }
  }

  lemma ReadyIsReady(pending: Edges, ready: set<string>)
    requires ready == set n | n in pending && pending[n] == {}
    ensures IsReady(pending, ready) && ready <= pending.Keys
  {
  }

  lemma AddLayer(edges: Edges, pending: Edges, k: nat, ready: set<string>, order: seq<string>, layer: seq<string>)
    requires OrderedBy(edges, order) && Listed(edges, order, k) && StrictlySorted(layer)
    requires forall n :: n in layer <==> n in ready
    requires forall n :: n in ready <==> InLayer(edges, n, k)
    ensures OrderedBy(edges, order + layer) && Listed(edges, order + layer, k + 1)
  {
    hide HasChain, OrderedBy, StrictlySorted;
    forall a, b | a in layer && b in layer
      ensures SameDepth(edges, a, b)
    {
      SameLayer(edges, a, b, k);
    }
    AppendLayer(edges, order, layer, k);
    forall n
      ensures n in order + layer <==> n in edges && !HasChain(edges, n, k + 1)
    {
      ChainShrinks'(edges, n, k + 1, k);
      ChainShrinks'(edges, n, k, 0);
      ChainZero(edges, n);
    }
  }

  lemma AddStuck(edges: Edges, pending: Edges, k: nat, order: seq<string>, stuck: seq<string>)
    requires OrderedBy(edges, order) && Listed(edges, order, k) && StrictlySorted(stuck)
    requires forall n :: n in stuck <==> n in pending
    requires Peeled(edges, pending, k) && forall n :: n in pending ==> Endless(edges, n)
    ensures OrderedBy(edges, order + stuck)
    ensures forall n :: n in order + stuck <==> n in edges
  {
    hide HasChain, OrderedBy, StrictlySorted;
    forall a, b | a in stuck && b in stuck
      ensures SameDepth(edges, a, b)
    {
      assert Endless(edges, a) && Endless(edges, b);
    }
    AppendLayer(edges, order, stuck, k);
  }

  lemma AllPeeled(edges: Edges, k: nat, order: seq<string>)
    requires Peeled(edges, map[], k) && Listed(edges, order, k)
    ensures !HasCycle(edges) && forall n :: n in order <==> n in edges
  {
    hide HasChain;
    forall n | n in edges
      ensures !Endless(edges, n)
    {
      assert !HasChain(edges, n, k);
    }
  }

  lemma Fewer(pending: Edges, rest: Edges, ready: set<string>)
    requires rest.Keys == pending.Keys - ready && ready != {} && ready <= pending.Keys
    ensures |rest| < |pending|
  {
    assert |rest.Keys| == |pending.Keys| - |ready|;
    assert |rest.Keys| == |rest| && |pending.Keys| == |pending|;
  }

  lemma Stuck(edges: Edges, pending: Edges, k: nat, ready: set<string>)
    requires Peeled(edges, pending, k) && pending != map[] && IsReady(pending, ready) && ready == {}
    ensures forall n :: n in pending ==> Endless(edges, n)
    ensures HasCycle(edges)
  {
    hide HasChain, Peeled, Held;
    forall m | m in pending.Keys
      ensures Held(edges, pending.Keys, m)
    {
      NotReadyHeld(edges, pending, k, ready, m);
    }
    forall n, j: nat | n in pending
      ensures HasChain(edges, n, j)
    {
      StuckIsEndless(edges, pending.Keys, n, j);
    }
    var n :| n in pending;
    ChainZero(edges, n);
    assert Endless(edges, n);
  }

  lemma NotReadyHeld(edges: Edges, pending: Edges, k: nat, ready: set<string>, m: string)
    requires Peeled(edges, pending, k) && IsReady(pending, ready) && m in pending && m !in ready
    ensures Held(edges, pending.Keys, m)
  {
    hide HasChain;
    var d :| d in pending[m];
    assert d in edges[m] && HasChain(edges, d, k);
    assert d in pending.Keys;
  }

  // ----- the order is determined by nodes and edges alone -----

  lemma BeforeIsStrict(edges: Edges, a: string, b: string)
    ensures Before(edges, a, b) ==> a != b && !Before(edges, b, a)
  {
    hide HasChain, Shallower, SameDepth;
    StrLessTrichotomy(a, b);
    ShallowerIsStrict(edges, a, b);
    ShallowerIsStrict(edges, b, a);
  }

  lemma ShallowerIsStrict(edges: Edges, a: string, b: string)
    ensures Shallower(edges, a, b) ==>
              a != b && !Shallower(edges, b, a) && !SameDepth(edges, a, b) && !SameDepth(edges, b, a)
  {
    hide HasChain;
    if Shallower(edges, a, b) {
      var k: nat :| !HasChain(edges, a, k) && HasChain(edges, b, k);
      forall j: nat
        ensures HasChain(edges, a, j) ==> HasChain(edges, b, j)
      {
        if j <= k { ChainShrinks'(edges, b, k, j); } else { ChainShrinks'(edges, a, j, k); }
      }
    }
  }

  /** No node is listed twice. */
  lemma OrderIsDistinct(edges: Edges, order: seq<string>, i: nat, j: nat)
    requires OrderedBy(edges, order) && i < j < |order|
    ensures order[i] != order[j]
  {
    BeforeIsStrict(edges, order[i], order[j]);
  }

  /** Two lists of the same nodes in this order are the same list, whatever
      order the nodes came in. */
  lemma {:induction false} OrderIsUnique(edges: Edges, a: seq<string>, b: seq<string>)
    requires OrderedBy(edges, a) && OrderedBy(edges, b)
    requires forall n :: n in a <==> n in b
    ensures a == b
    decreases |a|
  {
    hide Before;
    if a == [] {
      assert forall i :: 0 <= i < |b| ==> b[i] in b;
    } else {
      assert a[0] in a && a[0] in b;
      var i :| 0 <= i < |b| && b[i] == a[0];
      assert b[0] in b && b[0] in a;
      var j :| 0 <= j < |a| && a[j] == b[0];
      BeforeIsStrict(edges, a[0], b[0]);
      assert a[0] == b[0];
      forall n
        ensures n in a[1..] <==> n in b[1..]
      {
        SameTail(edges, a, b, n);
        SameTail(edges, b, a, n);
      }
      OrderIsUnique(edges, a[1..], b[1..]);
      assert a == [a[0]] + a[1..] && b == [b[0]] + b[1..];
    }
  }

  lemma SameTail(edges: Edges, a: seq<string>, b: seq<string>, n: string)
    requires OrderedBy(edges, a) && a != [] && b != [] && a[0] == b[0] && (forall m :: m in a <==> m in b)
    ensures n in a[1..] ==> n in b[1..]
  {
    if n in a[1..] {
      var i :| 0 <= i < |a[1..]| && a[1..][i] == n;
      OrderIsDistinct(edges, a, 0, i + 1);
      assert n == a[i + 1] && n in a && n in b;
      var j :| 0 <= j < |b| && b[j] == n;
      assert b[1..][j - 1] == n;
    }
  }

  /** A dependency comes before what depends on it, unless that can reach a
      cycle. */
  lemma DependencyFirst(edges: Edges, order: seq<string>, i: nat, j: nat)
    requires OrderedBy(edges, order) && i < |order| && j < |order|
    requires order[j] in edges && order[i] in edges[order[j]] && !Endless(edges, order[j])
    ensures i < j
  {
    hide HasChain;
    var d, n := order[i], order[j];
    var k: nat :| !HasChain(edges, n, k);
    var m := LongestBelow(edges, n, k);
    ChainStep(edges, n, m);
    assert Leads(edges, n, m) || !HasChain(edges, d, m);
    assert Shallower(edges, d, n);
    BeforeIsStrict(edges, d, n);
    BeforeIsStrict(edges, n, d);
  }

  lemma NotEndlessBelow(edges: Edges, n: string, d: string)
    requires n in edges && d in edges[n] && !Endless(edges, n)
    ensures !Endless(edges, d)
  {
    if Endless(edges, d) {
      forall k: nat
        ensures HasChain(edges, n, k)
      {
        if k > 0 {
          ChainStep(edges, n, k - 1);
          assert Leads(edges, n, k - 1);
        }
      }
    }
  }

  /** So does a dependency at the end of any path that stays among the nodes. */
  lemma {:induction false} TransitiveDependencyFirst(edges: Edges, order: seq<string>, p: seq<string>, i: nat, j: nat)
    requires OrderedBy(edges, order) && (forall n :: n in order <==> n in edges)
    requires IsPath(edges, p) && |p| >= 2 && !Endless(edges, p[0])
    requires i < |order| && j < |order| && order[j] == p[0] && order[i] == p[|p| - 1]
    ensures i < j
    decreases |p|
  {
    hide Endless, OrderedBy;
    assert p[1] in edges && p[1] in edges[p[0]];
    var m: nat :| m < |order| && order[m] == p[1];
    DependencyFirst(edges, order, m, j);
    if |p| > 2 {
      NotEndlessBelow(edges, p[0], p[1]);
      assert forall k :: 0 <= k < |p| - 1 ==> p[1..][k] == p[k + 1];
      TransitiveDependencyFirst(edges, order, p[1..], i, m);
    } else {
      if i != m { OrderIsDistinct(edges, order, if i < m then i else m, if i < m then m else i); }
    }
  }

  /** Not so when the path leaves the nodes: with `a` on `b` on `c`, and `a` and
      `c` alone to be ordered, `a` comes first. */
  lemma PathOutsideImposesNothing(graph: Graph, order: seq<string>)
    requires "a" in graph && graph["a"] == [Dependency("b", Started, false)]
    requires "b" in graph && graph["b"] == [Dependency("c", Started, false)]
    requires "c" in graph && graph["c"] == []
    requires OrderedBy(Induced({"a", "c"}, graph), order) && forall n :: n in order <==> n in {"a", "c"}
    ensures order == ["a", "c"]
    ensures IsPath(Induced({"a", "b", "c"}, graph), ["a", "b", "c"])
  {
    hide OrderedBy, Before;
    var some, all := Induced({"a", "c"}, graph), Induced({"a", "b", "c"}, graph);
    assert graph["a"][0].service == "b" && graph["b"][0].service == "c";
    assert some["a"] == {} && some["c"] == {} && all["a"] == {"b"} && all["b"] == {"c"};
    NothingBelow(some, "a", "c");
    assert OrderedBy(some, ["a", "c"]) by { assert Before(some, "a", "c"); Pair(some, "a", "c"); }
    OrderIsUnique(some, order, ["a", "c"]);
  }

  lemma NothingBelow(edges: Edges, a: string, b: string)
    requires a in edges && b in edges && edges[a] == {} && edges[b] == {} && StrLess(a, b)
    ensures Before(edges, a, b)
  {
    forall k: nat
      ensures HasChain(edges, a, k) <==> HasChain(edges, b, k)
    {
    }
  }

  lemma Pair(edges: Edges, a: string, b: string)
    requires Before(edges, a, b)
    ensures OrderedBy(edges, [a, b])
  {
    hide Before;
  }

  /** The length of the longest chain from a node that has one. */
  lemma {:induction false} LongestBelow(edges: Edges, n: string, k: nat) returns (m: nat)
    requires n in edges && !HasChain(edges, n, k)
    ensures HasChain(edges, n, m) && !HasChain(edges, n, m + 1)
  {
    ChainZero(edges, n);
    if HasChain(edges, n, k - 1) { m := k - 1; } else { m := LongestBelow(edges, n, k - 1); }
  }

  // ----- the fallback and real cycles -----

  ghost predicate IsPath(edges: Edges, p: seq<string>) {
    p != [] && (forall i :: 0 <= i < |p| ==> p[i] in edges)
    && forall i :: 0 <= i < |p| - 1 ==> p[i + 1] in edges[p[i]]
  }

  /** A cycle of at least two nodes. */
  ghost predicate IsCycle(edges: Edges, p: seq<string>) {
    IsPath(edges, p) && |p| >= 3 && p[0] == p[|p| - 1]
  }

  lemma {:induction false} ChainPath(edges: Edges, n: string, k: nat) returns (p: seq<string>)
    requires HasChain(edges, n, k)
    ensures IsPath(edges, p) && |p| == k + 1 && p[0] == n
    decreases k
  {
    if k == 0 {
      p := [n];
    } else {
      var d :| d in edges[n] && HasChain(edges, d, k - 1);
      var q := ChainPath(edges, d, k - 1);
      p := [n] + q;
      forall i | 0 <= i < |p| - 1
        ensures p[i + 1] in edges[p[i]]
      {
        if i > 0 { assert p[i] == q[i - 1] && p[i + 1] == q[i]; }
      }
    }
  }

  /** A list longer than the set it draws from repeats itself. */
  lemma {:induction false} Pigeonhole(p: seq<string>, names: set<string>) returns (i: nat, j: nat)
    requires |p| > |names| && forall k :: 0 <= k < |p| ==> p[k] in names
    ensures i < j < |p| && p[i] == p[j]
    decreases |p|
  {
    var last := p[|p| - 1];
    if k :| 0 <= k < |p| - 1 && p[k] == last {
      i, j := k, |p| - 1;
    } else {
      assert |names - {last}| == |names| - 1;
      i, j := Pigeonhole(p[..|p| - 1], names - {last});
    }
  }

  /** The fallback fires exactly when the induced graph has a cycle. */
  lemma FallbackIffCycle(nodes: set<string>, graph: Graph)
    ensures HasCycle(Induced(nodes, graph)) <==> exists p :: IsCycle(Induced(nodes, graph), p)
  {
    var edges := Induced(nodes, graph);
    if HasCycle(edges) {
      var n :| n in edges && Endless(edges, n);
      var p := ChainPath(edges, n, |edges.Keys|);
      var i, j := Pigeonhole(p, edges.Keys);
      CutCycle(nodes, graph, p, i, j);
    }
    if p :| IsCycle(edges, p) {
      CycleIsEndless(edges, p);
    }
  }

  lemma CutCycle(nodes: set<string>, graph: Graph, p: seq<string>, i: nat, j: nat)
    requires IsPath(Induced(nodes, graph), p) && i < j < |p| && p[i] == p[j]
    ensures IsCycle(Induced(nodes, graph), p[i..j + 1])
  {
    var edges, c := Induced(nodes, graph), p[i..j + 1];
    forall k | 0 <= k < |c| - 1
      ensures c[k + 1] in edges[c[k]]
    {
      assert c[k] == p[i + k] && c[k + 1] == p[i + k + 1];
    }
    assert p[i + 1] in InSet(nodes, graph, p[i]);
  }

  lemma CycleIsEndless(edges: Edges, p: seq<string>)
    requires IsCycle(edges, p)
    ensures HasCycle(edges)
  {
    hide HasChain;
    var on := set i | 0 <= i < |p| :: p[i];
    forall m | m in on
      ensures Held(edges, on, m)
    {
      var i :| 0 <= i < |p| && p[i] == m;
      var k := if i == |p| - 1 then 0 else i;
      assert p[k] == m && p[k + 1] in edges[m] && p[k + 1] in on;
    }
    assert p[0] in on && p[0] in edges;
    forall k: nat
      ensures HasChain(edges, p[0], k)
    {
      StuckIsEndless(edges, on, p[0], k);
    }
    assert Endless(edges, p[0]);
  }

  // ----- restarts -----

  predicate RestartsWith(deps: seq<Dependency>, updated: set<string>) {
    exists i :: 0 <= i < |deps| && deps[i].restart && deps[i].service in updated
  }

  function RestartDependents(graph: Graph, updated: set<string>): seq<string> {
    SortedNames(set s | s in graph && s !in updated && RestartsWith(graph[s], updated))
  }
}
