/**
 * RouteReader: turns the Fstr_Fahrweg records of a container into routes
 * between signals of the topology. The edges of such a route form a set.
 */
module RouteReader {
  import opened Wrappers
  import opened PlanProRecords
  import opened Yaramo

  /** "{start_signal.name}-{end_signal.name}". */
  function RouteName(start: Signal, end: Signal): (r: string)
    ensures |r| == |start.name| + 1 + |end.name|
    ensures r[..|start.name|] == start.name && r[|start.name|] == '-' && r[|start.name| + 1..] == end.name
  {
    start.name + "-" + end.name
  }

  /** Both end signals of the route resolve in the topology. */
  predicate BothSignals(s: TopoState, f: FstrFahrweg)
  {
    f.idStart in s.signals && f.idZiel in s.signals
  }

  /** The route built from `f` whose edges are `edges`. */
  function NewRoute(s: TopoState, f: FstrFahrweg, edges: RouteEdges): Route
    requires BothSignals(s, f)
  {
    Route(f.uuid, f.idStart, f.idZiel, f.vHg, RouteName(s.signals[f.idStart], s.signals[f.idZiel]), edges)
  }

  /** The referenced TOP_Kanten that are edges of the topology. */
  function ResolvedEdgeSet(edges: map<string, Edge>, refs: seq<string>): set<string>
  {
    set e | e in refs && e in edges
  }

  /** One iteration of read_routes_from_container. */
  function ReadRoute(s: TopoState, f: FstrFahrweg): TopoState
  {
    if BothSignals(s, f) then
      s.(routes := s.routes[f.uuid := NewRoute(s, f, EdgeSet(ResolvedEdgeSet(s.edges, f.teilbereiche)))])
    else s
  }

  function ReadRoutesFrom(s: TopoState, fs: seq<FstrFahrweg>): TopoState
    decreases |fs|
  {
    if fs == [] then s else ReadRoute(ReadRoutesFrom(s, fs[..|fs| - 1]), fs[|fs| - 1])
  }

  /** The loop over Bereich_Objekt_Teilbereich, adding each edge that exists. */
  method CollectEdgeSet(edges: map<string, Edge>, refs: seq<string>) returns (result: set<string>)
    ensures result == ResolvedEdgeSet(edges, refs)
  {
    result := {};
    var i := 0;
    while i < |refs|
      invariant 0 <= i <= |refs|
      invariant result == ResolvedEdgeSet(edges, refs[..i])
    {
      assert forall e :: e in refs[..i + 1] <==> e in refs[..i] || e == refs[i] by {
        assert refs[..i + 1] == refs[..i] + [refs[i]];
      }
      if refs[i] in edges {
        result := result + {refs[i]};
      }
      i := i + 1;
    }
    assert refs[..i] == refs;
  }

  method ReadOneRoute(topology: Topology, f: FstrFahrweg)
    modifies topology`routes
    ensures topology.State() == ReadRoute(old(topology.State()), f)
  {
    if f.idStart !in topology.signals || f.idZiel !in topology.signals {
      return;
    }
    var edges := CollectEdgeSet(topology.edges, f.teilbereiche);
    var route := Route(f.uuid, f.idStart, f.idZiel, f.vHg,
                       RouteName(topology.signals[f.idStart], topology.signals[f.idZiel]), EdgeSet(edges));
    topology.AddRoute(route);
  }

  /** RouteReader.read_routes_from_container. */
  method ReadRoutes(c: Container, topology: Topology)
    modifies topology`routes
    ensures topology.State() == ReadRoutesFrom(old(topology.State()), c.fahrwege)
  {
    ghost var s0 := topology.State();
    var i := 0;
    while i < |c.fahrwege|
      invariant 0 <= i <= |c.fahrwege|
      invariant topology.State() == ReadRoutesFrom(s0, c.fahrwege[..i])
    {
      assert c.fahrwege[..i + 1][..i] == c.fahrwege[..i];
      ReadOneRoute(topology, c.fahrwege[i]);
      i := i + 1;
    }
    assert c.fahrwege[..i] == c.fahrwege;
  }

  /** One record adds the route `f.uuid` exactly when both of its signals
      resolve: from `f`, between those signals, over the referenced edges that
      exist, named after the two signals; nothing else changes. */
  lemma ReadRouteEffect(s: TopoState, f: FstrFahrweg)
    ensures var r := ReadRoute(s, f);
      && r.nodes == s.nodes && r.edges == s.edges && r.signals == s.signals
      && (!BothSignals(s, f) ==> r == s)
      && (BothSignals(s, f) ==>
            && r.routes.Keys == s.routes.Keys + {f.uuid}
            && (forall u :: u in s.routes && u != f.uuid ==> r.routes[u] == s.routes[u])
            && r.routes[f.uuid].startSignal == f.idStart && r.routes[f.uuid].endSignal == f.idZiel
            && r.routes[f.uuid].maximumSpeed == f.vHg
            && r.routes[f.uuid].name == s.signals[f.idStart].name + "-" + s.signals[f.idZiel].name
            && (forall e :: e in EdgeRefs(r.routes[f.uuid].edges) <==> e in f.teilbereiche && e in s.edges))
  {
  }

  /** After the pass, the routes are the earlier ones and one for each record
      whose two signals resolve; the signals, edges and nodes are unchanged. */
  lemma {:induction false} ReadRoutesKeys(s: TopoState, fs: seq<FstrFahrweg>)
    ensures var r := ReadRoutesFrom(s, fs);
      && r.nodes == s.nodes && r.edges == s.edges && r.signals == s.signals
      && r.routes.Keys == s.routes.Keys + set f | f in fs && BothSignals(s, f) :: f.uuid
    decreases |fs|
  {
    if fs != [] {
      var init := fs[..|fs| - 1];
      ReadRoutesKeys(s, init);
      ReadRouteEffect(ReadRoutesFrom(s, init), fs[|fs| - 1]);
      assert forall f :: f in fs <==> f in init || f == fs[|fs| - 1] by {
        assert fs == init + [fs[|fs| - 1]];
      }
    }
  }

  /** A route pass keeps a valid topology valid: each route's signals and
      edges are in the topology. */
  lemma {:induction false} ReadRoutesKeepValid(s: TopoState, fs: seq<FstrFahrweg>)
    requires Valid(s)
    ensures Valid(ReadRoutesFrom(s, fs))
    decreases |fs|
  {
    if fs != [] {
      ReadRoutesKeepValid(s, fs[..|fs| - 1]);
      ReadRouteEffect(ReadRoutesFrom(s, fs[..|fs| - 1]), fs[|fs| - 1]);
    }
  }
}
