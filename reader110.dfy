/**
 * PlanProReader110: imports a file of schema 1.10. For every container it
 * reads the nodes, the edges (walking the geo chain of each TOP_Kante) and the
 * point names; then the signals of every container; then the routes of every
 * container.
 */
module Reader110 {
  import opened Wrappers
  import opened PlanProRecords
  import opened Yaramo
  import opened Runs
  import Utils
  import NodeReader
  import opened GeoChain
  import SignalReader
  import RouteReader
  import FileNames

  /** How the walk of one TOP_Kante ends in read_edges_from_container: completed
      with the geo nodes passed, broken after a GEO_Knoten, or never. */
  datatype ChainEnd = Completed(geoNodes: seq<GeoNode>) | BrokenAfter(uuid: string) | NeverEnds

  function EndOf(points: seq<GeoPunkt>, w: WalkOutcome): ChainEnd
  {
    match w
    case Reached(us) => Completed(InteriorGeoNodes(points, us))
    case Broken(u) => BrokenAfter(u)
    case OutOfFuel => NeverEnds
  }

  /** The while loop of read_edges_from_container: from the far end of the
      first segment, record each GEO_Knoten passed and step over the next
      segment, until node_b's geo node is reached or no segment continues. */
  method WalkGeoChain(points: seq<GeoPunkt>, segs: seq<GeoKante>, a: string, b: Option<string>)
    returns (end: ChainEnd)
    requires FirstTouching(segs, a).Some?
    ensures end == EndOf(points, ChainWalk(segs, a, b))
  {
    var first := FirstTouching(segs, a).value;
    var prev2 := a;
    var prev := Other(a, first);
    var geoNodes: seq<GeoNode> := [];
    ghost var visited: seq<string> := [];
    var fuel := Fuel(segs);
    while Some(prev) != b
      invariant ChainWalk(segs, a, b) == Prepend(visited, WalkFrom(segs, prev2, prev, b, fuel))
      invariant geoNodes == InteriorGeoNodes(points, visited)
      decreases fuel
    {
      if fuel == 0 {
        return NeverEnds;
      }
      var xy := NodeReader.CoordinatesOfGeoNode(points, prev);
      geoNodes := geoNodes + [GeoNode(Some(prev), xy.0, xy.1, None, None)];
      visited := visited + [prev];
      var next := NextSegment(segs, prev, prev2);
      if next.None? {
        return BrokenAfter(prev);
      }
      PrependTwice(visited[..|visited| - 1], [prev], WalkFrom(segs, prev, Other(prev, next.value), b, fuel - 1));
      prev2 := prev;
      prev := Other(prev2, next.value);
      fuel := fuel - 1;
    }
    assert visited + [] == visited;
    return Completed(geoNodes);
  }

  lemma PrependTwice(us: seq<string>, vs: seq<string>, w: WalkOutcome)
    ensures Prepend(us, Prepend(vs, w)) == Prepend(us + vs, w)
  {
    if w.Reached? {
      assert us + (vs + w.interior) == (us + vs) + w.interior;
    }
  }

  /** The walk from node_a's geo node towards node_b's over the GEO_Kanten of
      the TOP_Kante. */
  function EdgeWalk(s: TopoState, c: Container, k: TopKante): WalkOutcome
    requires Walkable(s, c, k)
  {
    ChainWalk(Utils.GeoEdgesByTopEdgeUuid(c.geoKante, k.uuid), GeoUuid(s.nodes[k.knotenA]).value,
              GeoUuid(s.nodes[k.knotenB]))
  }

  /** Both calls of _set_connection: node_a to node_b by TOP_Anschluss_A, then
      node_b to node_a by TOP_Anschluss_B. */
  function ConnectEnds(s: TopoState, k: TopKante): TopoState
  {
    ConnectNode(ConnectNode(s, k.knotenA, k.anschlussA, k.knotenB), k.knotenB, k.anschlussB, k.knotenA)
  }

  /** One iteration of read_edges_from_container: both end nodes are connected
      to each other first; the edge is added only when the walk reaches node_b's
      geo node. */
  function ReadEdge(s: TopoState, c: Container, k: TopKante): Run
  {
    if !Walkable(s, c, k) then Raises
    else
      var connected := ConnectEnds(s, k);
      match EndOf(c.geoPunkt, EdgeWalk(s, c, k))
      case Completed(geoNodes) => Done(connected.(edges := connected.edges[k.uuid := NewEdge(k, geoNodes)]))
      case BrokenAfter(_) => Done(connected)
      case NeverEnds => Hangs
  }

  /** A TOP_Kante raises exactly when its walk cannot start and hangs exactly
      when the walk never ends. */
  lemma ReadEdgeFails(s: TopoState, c: Container, k: TopKante)
    ensures ReadEdge(s, c, k) == Raises <==> !Walkable(s, c, k)
    ensures ReadEdge(s, c, k) == Hangs <==> Walkable(s, c, k) && EdgeWalk(s, c, k).OutOfFuel?
  {
  }

  /** Otherwise node_a's slot for TOP_Anschluss_A holds node_b and node_b's
      slot for TOP_Anschluss_B holds node_a, every node keeps its uuid, geo
      node and name, and nodes other than the two ends are untouched; the edge
      `k.uuid` is added, between the two nodes, with the TOP_Kante's length and
      the geo nodes passed, exactly when the walk reaches node_b's geo node; no
      other edge, signal or route changes. */
  lemma ReadEdgeEffect(s: TopoState, c: Container, k: TopKante)
    requires Walkable(s, c, k) && !EdgeWalk(s, c, k).OutOfFuel?
    ensures ReadEdge(s, c, k).Done?
    ensures var r := ReadEdge(s, c, k).state;
      && r.signals == s.signals && r.routes == s.routes
      && r.nodes.Keys == s.nodes.Keys
      && Slot(r.nodes[k.knotenA], k.anschlussA) == Some(k.knotenB)
      && Slot(r.nodes[k.knotenB], k.anschlussB) == Some(k.knotenA)
      && (forall u :: u in s.nodes ==>
            && r.nodes[u].uuid == s.nodes[u].uuid
            && r.nodes[u].geoNode == s.nodes[u].geoNode
            && r.nodes[u].name == s.nodes[u].name)
      && (forall u :: u in s.nodes && u != k.knotenA && u != k.knotenB ==> r.nodes[u] == s.nodes[u])
      && (k.knotenA != k.knotenB ==>
            && r.nodes[k.knotenA] == Connected(s.nodes[k.knotenA], k.anschlussA, k.knotenB)
            && r.nodes[k.knotenB] == Connected(s.nodes[k.knotenB], k.anschlussB, k.knotenA))
      && (k.knotenA == k.knotenB ==>
            r.nodes[k.knotenA] == Connected(Connected(s.nodes[k.knotenA], k.anschlussA, k.knotenB), k.anschlussB, k.knotenA))
      && (EdgeWalk(s, c, k).Reached? ==>
            r.edges == s.edges[k.uuid := NewEdge(k, InteriorGeoNodes(c.geoPunkt, EdgeWalk(s, c, k).interior))])
      && (!EdgeWalk(s, c, k).Reached? ==> r.edges == s.edges)
  {
    ConnectPair(s, k.knotenA, k.anschlussA, k.knotenB, k.knotenB, k.anschlussB, k.knotenA);
  }

  /** When the GEO_Kanten of a TOP_Kante form a simple chain from node_a's geo
      node to node_b's, the edge is added, and its intermediate geo nodes are
      the interior GEO_Knoten of the chain in chain order, one fewer than there
      are GEO_Kanten. */
  lemma ReadEdgeOnSimpleChain(s: TopoState, c: Container, k: TopKante, path: seq<string>)
    requires SimpleChain(Utils.GeoEdgesByTopEdgeUuid(c.geoKante, k.uuid), path)
    requires k.knotenA in s.nodes && GeoUuid(s.nodes[k.knotenA]) == Some(path[0])
    requires k.knotenB in s.nodes && GeoUuid(s.nodes[k.knotenB]) == Some(path[|path| - 1])
    ensures ReadEdge(s, c, k).Done?
    ensures k.uuid in ReadEdge(s, c, k).state.edges
    ensures ReadEdge(s, c, k).state.edges[k.uuid]
      == NewEdge(k, InteriorGeoNodes(c.geoPunkt, path[1..|path| - 1]))
    ensures |ReadEdge(s, c, k).state.edges[k.uuid].intermediateGeoNodes|
      == |Utils.GeoEdgesByTopEdgeUuid(c.geoKante, k.uuid)| - 1
  {
    ChainWalkOnSimpleChain(Utils.GeoEdgesByTopEdgeUuid(c.geoKante, k.uuid), path);
  }

  method ReadOneEdge(t: Topology, c: Container, k: TopKante) returns (status: Status)
    modifies t`nodes, t`edges
    ensures RunOf(status, t.State()) == ReadEdge(old(t.State()), c, k)
  {
    if k.knotenA !in t.nodes || k.knotenB !in t.nodes {
      return Raised;
    }
    var nodeA := t.nodes[k.knotenA];
    var nodeB := t.nodes[k.knotenB];
    ghost var s0 := t.State();
    t.SetConnection(k.anschlussA, k.knotenA, k.knotenB);
    t.SetConnection(k.anschlussB, k.knotenB, k.knotenA);
    var segs := Utils.AllGeoEdgesByTopEdgeUuid(c.geoKante, k.uuid);
    var a := GeoUuid(nodeA);
    if a.None? || FirstTouching(segs, a.value).None? || nodeB.geoNode.None? {
      return Raised;
    }
    assert t.State() == ConnectEnds(s0, k);
    var end := WalkGeoChain(c.geoPunkt, segs, a.value, GeoUuid(nodeB));
    match end
    case Completed(geoNodes) =>
      t.AddEdge(NewEdge(k, geoNodes));
      return Finished;
    case BrokenAfter(_) =>
      return Finished;
    case NeverEnds =>
      return Hung;
  }

  /** read_edges_from_container over the TOP_Kanten `ks`, in order. */
  function ReadEdgesFrom(s: TopoState, c: Container, ks: seq<TopKante>): Run
    decreases |ks|
  {
    if ks == [] then Done(s)
    else
      match ReadEdgesFrom(s, c, ks[..|ks| - 1])
      case Done(s') => ReadEdge(s', c, ks[|ks| - 1])
      case other => other
  }

  /** Once a TOP_Kante raises or hangs, so does the whole pass. */
  lemma {:induction false} ReadEdgesStops(s: TopoState, c: Container, ks: seq<TopKante>, i: nat)
    requires i <= |ks| && !ReadEdgesFrom(s, c, ks[..i]).Done?
    ensures ReadEdgesFrom(s, c, ks) == ReadEdgesFrom(s, c, ks[..i])
    decreases |ks| - i
  {
    if i < |ks| {
      assert ks[..i + 1][..i] == ks[..i];
      ReadEdgesStops(s, c, ks, i + 1);
    } else {
      assert ks[..i] == ks;
    }
  }

  method ReadEdges(t: Topology, c: Container) returns (status: Status)
    modifies t`nodes, t`edges
    ensures RunOf(status, t.State()) == ReadEdgesFrom(old(t.State()), c, c.topKante)
  {
    ghost var s0 := t.State();
    var i := 0;
    while i < |c.topKante|
      invariant 0 <= i <= |c.topKante|
      invariant ReadEdgesFrom(s0, c, c.topKante[..i]) == Done(t.State())
    {
      assert c.topKante[..i + 1][..i] == c.topKante[..i];
      status := ReadOneEdge(t, c, c.topKante[i]);
      if status != Finished {
        ReadEdgesStops(s0, c, c.topKante, i + 1);
        return;
      }
      i := i + 1;
    }
    assert c.topKante[..i] == c.topKante;
    return Finished;
  }

  /** The referenced TOP_Kanten that are edges of the topology, in record
      order, repeats kept. */
  function ResolvedEdgeList(edges: map<string, Edge>, refs: seq<string>): seq<string>
  {
    if refs == [] then []
    else if refs[0] in edges then [refs[0]] + ResolvedEdgeList(edges, refs[1..])
    else ResolvedEdgeList(edges, refs[1..])
  }

  /** Each reference that resolves occurs in the list as often as in the
      record, and no other uuid occurs. */
  lemma {:induction false} ResolvedEdgeListExact(edges: map<string, Edge>, refs: seq<string>)
    ensures forall e :: multiset(ResolvedEdgeList(edges, refs))[e] == if e in edges then multiset(refs)[e] else 0
  {
    if refs != [] {
      ResolvedEdgeListExact(edges, refs[1..]);
      assert refs == [refs[0]] + refs[1..];
    }
  }

  lemma {:induction false} ResolvedEdgeListDistributes(edges: map<string, Edge>, a: seq<string>, b: seq<string>)
    ensures ResolvedEdgeList(edges, a + b) == ResolvedEdgeList(edges, a) + ResolvedEdgeList(edges, b)
  {
    if a == [] {
      assert a + b == b;
    } else {
      assert (a + b)[1..] == a[1..] + b;
      ResolvedEdgeListDistributes(edges, a[1..], b);
    }
  }

  /** The loop over Bereich_Objekt_Teilbereich, appending each edge that exists. */
  method CollectEdgeList(edges: map<string, Edge>, refs: seq<string>) returns (result: seq<string>)
    ensures result == ResolvedEdgeList(edges, refs)
  {
    result := [];
    var i := 0;
    while i < |refs|
      invariant 0 <= i <= |refs|
      invariant result == ResolvedEdgeList(edges, refs[..i])
    {
      assert refs[..i + 1] == refs[..i] + [refs[i]];
      ResolvedEdgeListDistributes(edges, refs[..i], [refs[i]]);
      assert ResolvedEdgeList(edges, [refs[i]]) == if refs[i] in edges then [refs[i]] else [];
      if refs[i] in edges {
        result := result + [refs[i]];
      }
      i := i + 1;
    }
    assert refs[..i] == refs;
  }

  /** One iteration of read_routes_from_container of schema 1.10: as in
      RouteReader, but the edges form a list. */
  function ReadRoute(s: TopoState, f: FstrFahrweg): TopoState
  {
    if RouteReader.BothSignals(s, f) then
      s.(routes := s.routes[f.uuid := RouteReader.NewRoute(s, f, EdgeList(ResolvedEdgeList(s.edges, f.teilbereiche)))])
    else s
  }

  function ReadRoutesFrom(s: TopoState, fs: seq<FstrFahrweg>): TopoState
    decreases |fs|
  {
    if fs == [] then s else ReadRoute(ReadRoutesFrom(s, fs[..|fs| - 1]), fs[|fs| - 1])
  }

  method ReadOneRoute(t: Topology, f: FstrFahrweg)
    modifies t`routes
    ensures t.State() == ReadRoute(old(t.State()), f)
  {
    if f.idStart !in t.signals || f.idZiel !in t.signals {
      return;
    }
    var edges := CollectEdgeList(t.edges, f.teilbereiche);
    var route := Route(f.uuid, f.idStart, f.idZiel, f.vHg,
                       RouteReader.RouteName(t.signals[f.idStart], t.signals[f.idZiel]), EdgeList(edges));
    t.AddRoute(route);
  }

  method ReadRoutes(t: Topology, c: Container)
    modifies t`routes
    ensures t.State() == ReadRoutesFrom(old(t.State()), c.fahrwege)
  {
    ghost var s0 := t.State();
    var i := 0;
    while i < |c.fahrwege|
      invariant 0 <= i <= |c.fahrwege|
      invariant t.State() == ReadRoutesFrom(s0, c.fahrwege[..i])
    {
      assert c.fahrwege[..i + 1][..i] == c.fahrwege[..i];
      ReadOneRoute(t, c.fahrwege[i]);
      i := i + 1;
    }
    assert c.fahrwege[..i] == c.fahrwege;
  }

  /** A route record of schema 1.10 adds the route `f.uuid` exactly when both
      of its signals resolve: between those signals, named after them, with the
      referenced TOP_Kanten that are edges, in record order; nothing else
      changes. */
  lemma ReadRouteEffect(s: TopoState, f: FstrFahrweg)
    ensures var r := ReadRoute(s, f);
      && r.nodes == s.nodes && r.edges == s.edges && r.signals == s.signals
      && (!RouteReader.BothSignals(s, f) ==> r == s)
      && (RouteReader.BothSignals(s, f) ==>
            && r.routes.Keys == s.routes.Keys + {f.uuid}
            && (forall u :: u in s.routes && u != f.uuid ==> r.routes[u] == s.routes[u])
            && r.routes[f.uuid].startSignal == f.idStart && r.routes[f.uuid].endSignal == f.idZiel
            && r.routes[f.uuid].maximumSpeed == f.vHg
            && r.routes[f.uuid].name == s.signals[f.idStart].name + "-" + s.signals[f.idZiel].name
            && r.routes[f.uuid].edges == EdgeList(ResolvedEdgeList(s.edges, f.teilbereiche)))
  {
  }

  /** Schema 1.10 and schema 1.9 read a route record alike except for the form
      of its edges: the list of 1.10 holds exactly the edges of the set of 1.9. */
  lemma ReadRouteAgreesWith19(s: TopoState, f: FstrFahrweg)
    ensures var r := ReadRoute(s, f);
      var r' := RouteReader.ReadRoute(s, f);
      && r.nodes == r'.nodes && r.edges == r'.edges && r.signals == r'.signals
      && r.routes.Keys == r'.routes.Keys
      && (forall u :: u in r.routes && u != f.uuid ==> r.routes[u] == r'.routes[u])
      && (f.uuid in r.routes ==>
            && r.routes[f.uuid] == r'.routes[f.uuid].(edges := r.routes[f.uuid].edges)
            && EdgeRefs(r.routes[f.uuid].edges) == EdgeRefs(r'.routes[f.uuid].edges))
  {
    if RouteReader.BothSignals(s, f) {
      ResolvedEdgeListExact(s.edges, f.teilbereiche);
      var l := ResolvedEdgeList(s.edges, f.teilbereiche);
      forall e ensures e in l <==> e in f.teilbereiche && e in s.edges {
        assert e in l <==> multiset(l)[e] > 0;
        assert e in f.teilbereiche <==> multiset(f.teilbereiche)[e] > 0;
      }
    }
  }

  /** A route pass keeps a valid topology valid: each route's signals and
      edges are in the topology. */
  lemma {:induction false} ReadRoutesKeepValid(s: TopoState, fs: seq<FstrFahrweg>)
    requires Valid(s)
    ensures Valid(ReadRoutesFrom(s, fs))
    decreases |fs|
  {
    if fs != [] {
      var s' := ReadRoutesFrom(s, fs[..|fs| - 1]);
      ReadRoutesKeepValid(s, fs[..|fs| - 1]);
      var f := fs[|fs| - 1];
      if RouteReader.BothSignals(s', f) {
        ReadRouteAgreesWith19(s', f);
        RouteReader.ReadRouteEffect(s', f);
      }
    }
  }

  /** Every W_Kr_Gsp_Element has a Bezeichnung_Aussenanlage and a component;
      add_point_names raises otherwise. */
  predicate ElementsComplete(c: Container)
  {
    forall el :: el in c.elemente ==> NodeReader.ElementComplete(c.komponenten, el)
  }

  /** The first loop of read_topology_from_plan_pro_file, for one container:
      read_nodes, read_edges_from_container, add_point_names. */
  function ContainerTopology(s: TopoState, c: Container): Run
  {
    match ReadEdgesFrom(NodeReader.ReadNodesFrom(s, c.geoPunkt, c.topKnoten), c, c.topKante)
    case Done(s') => if ElementsComplete(c) then Done(NodeReader.AddPointNamesSpec(s', c)) else Raises
    case other => other
  }

  function TopologyPhase(s: TopoState, cs: seq<Container>): Run
    decreases |cs|
  {
    if cs == [] then Done(s)
    else
      match TopologyPhase(s, cs[..|cs| - 1])
      case Done(s') => ContainerTopology(s', cs[|cs| - 1])
      case other => other
  }

  function SignalPhase(s: TopoState, cs: seq<Container>, cat: SignalReader.Catalogue): Run
    decreases |cs|
  {
    if cs == [] then Done(s)
    else
      match SignalPhase(s, cs[..|cs| - 1], cat)
      case Done(s') => SignalReader.ReadSignalsFrom(s', cs[|cs| - 1], cs[|cs| - 1].signale, cat)
      case other => other
  }

  function RoutePhase(s: TopoState, cs: seq<Container>): TopoState
    decreases |cs|
  {
    if cs == [] then s else ReadRoutesFrom(RoutePhase(s, cs[..|cs| - 1]), cs[|cs| - 1].fahrwege)
  }

  /** read_topology_from_plan_pro_file: no container raises ImportError;
      otherwise the topology of every container, then the signals of every
      container, then the routes of every container. */
  function Import(s: TopoState, root: RootObject, cat: SignalReader.Catalogue): Run
  {
    match Utils.GetContainer(root)
    case None => Raises
    case Some(cs) =>
      match TopologyPhase(s, cs)
      case Done(s1) => SignalsAndRoutes(s1, cs, cat)
      case other => other
  }

  /** The second and third loops, once every topology is read. */
  function SignalsAndRoutes(s: TopoState, cs: seq<Container>, cat: SignalReader.Catalogue): Run
  {
    match SignalPhase(s, cs, cat)
    case Done(s') => Done(RoutePhase(s', cs))
    case other => other
  }

  lemma {:induction false} TopologyPhaseStops(s: TopoState, cs: seq<Container>, i: nat)
    requires i <= |cs| && !TopologyPhase(s, cs[..i]).Done?
    ensures TopologyPhase(s, cs) == TopologyPhase(s, cs[..i])
    decreases |cs| - i
  {
    if i < |cs| {
      assert cs[..i + 1][..i] == cs[..i];
      TopologyPhaseStops(s, cs, i + 1);
    } else {
      assert cs[..i] == cs;
    }
  }

  lemma {:induction false} SignalPhaseStops(s: TopoState, cs: seq<Container>, cat: SignalReader.Catalogue, i: nat)
    requires i <= |cs| && !SignalPhase(s, cs[..i], cat).Done?
    ensures SignalPhase(s, cs, cat) == SignalPhase(s, cs[..i], cat)
    decreases |cs| - i
  {
    if i < |cs| {
      assert cs[..i + 1][..i] == cs[..i];
      SignalPhaseStops(s, cs, cat, i + 1);
    } else {
      assert cs[..i] == cs;
    }
  }

  /** A TOP_Kante keeps a bare topology bare: an added edge joins two nodes. */
  lemma ReadEdgeKeepsBare(s: TopoState, c: Container, k: TopKante)
    requires Bare(s) && ReadEdge(s, c, k).Done?
    ensures Bare(ReadEdge(s, c, k).state)
  {
    ReadEdgeFails(s, c, k);
    ReadEdgeEffect(s, c, k);
  }

  lemma {:induction false} ReadEdgesKeepBare(s: TopoState, c: Container, ks: seq<TopKante>)
    requires Bare(s) && ReadEdgesFrom(s, c, ks).Done?
    ensures Bare(ReadEdgesFrom(s, c, ks).state)
    decreases |ks|
  {
    if ks != [] {
      ReadEdgesKeepBare(s, c, ks[..|ks| - 1]);
      ReadEdgeKeepsBare(ReadEdgesFrom(s, c, ks[..|ks| - 1]).state, c, ks[|ks| - 1]);
    }
  }

  lemma {:induction false} TopologyPhaseKeepsBare(s: TopoState, cs: seq<Container>)
    requires Bare(s) && TopologyPhase(s, cs).Done?
    ensures Bare(TopologyPhase(s, cs).state)
    decreases |cs|
  {
    if cs != [] {
      var s' := TopologyPhase(s, cs[..|cs| - 1]).state;
      TopologyPhaseKeepsBare(s, cs[..|cs| - 1]);
      var c := cs[|cs| - 1];
      var s1 := NodeReader.ReadNodesFrom(s', c.geoPunkt, c.topKnoten);
      NodeReader.ReadNodesKeepBare(s', c.geoPunkt, c.topKnoten);
      ReadEdgesKeepBare(s1, c, c.topKante);
      NodeReader.AddPointNamesKeepsBare(ReadEdgesFrom(s1, c, c.topKante).state, c);
    }
  }

  lemma {:induction false} SignalPhaseKeepsValid(s: TopoState, cs: seq<Container>, cat: SignalReader.Catalogue)
    requires Valid(s) && SignalPhase(s, cs, cat).Done?
    ensures Valid(SignalPhase(s, cs, cat).state)
    decreases |cs|
  {
    if cs != [] {
      SignalPhaseKeepsValid(s, cs[..|cs| - 1], cat);
      var c := cs[|cs| - 1];
      SignalReader.ReadSignalsKeepValid(SignalPhase(s, cs[..|cs| - 1], cat).state, c, c.signale, cat);
    }
  }

  lemma {:induction false} RoutePhaseKeepsValid(s: TopoState, cs: seq<Container>)
    requires Valid(s)
    ensures Valid(RoutePhase(s, cs))
    decreases |cs|
  {
    if cs != [] {
      RoutePhaseKeepsValid(s, cs[..|cs| - 1]);
      ReadRoutesKeepValid(RoutePhase(s, cs[..|cs| - 1]), cs[|cs| - 1].fahrwege);
    }
  }

  /** Every topology a schema 1.10 import into a fresh topology finishes with
      is valid: entities are keyed by uuid, edges join nodes, signals sit on
      edges that list them, and routes join signals over edges. */
  lemma ImportValid(root: RootObject, cat: SignalReader.Catalogue)
    requires Import(EmptyState, root, cat).Done?
    ensures Valid(Import(EmptyState, root, cat).state)
  {
    var cs := Utils.GetContainer(root).value;
    TopologyPhaseKeepsBare(EmptyState, cs);
    var s1 := TopologyPhase(EmptyState, cs).state;
    SignalPhaseKeepsValid(s1, cs, cat);
    RoutePhaseKeepsValid(SignalPhase(s1, cs, cat).state, cs);
  }

  /** "{Werkzeug_Name} (Version: {Werkzeug_Version})". */
  function CreatedWith(tool: string, version: string): string
  {
    tool + " (Version: " + version + ")"
  }

  /** The tool name and version can be read back from the string. */
  lemma CreatedWithReadsBack(tool: string, version: string)
    ensures var r := CreatedWith(tool, version);
      && |r| == |tool| + |version| + 12
      && r[..|tool|] == tool
      && r[|tool|..|tool| + 11] == " (Version: "
      && r[|tool| + 11..|r| - 1] == version
      && r[|r| - 1] == ')'
  {
    var r := CreatedWith(tool, version);
    assert r == tool + (" (Version: " + (version + ")"));
  }

  /** The body of the first loop: nodes, edges, then point names. */
  method ReadContainerTopology(t: Topology, c: Container) returns (status: Status)
    modifies t`nodes, t`edges
    ensures RunOf(status, t.State()) == ContainerTopology(old(t.State()), c)
  {
    NodeReader.ReadNodes(t, c);
    status := ReadEdges(t, c);
    if status != Finished {
      return;
    }
    if !ElementsComplete(c) {
      return Raised;
    }
    NodeReader.AddPointNames(t, c);
  }

  lemma TopologyPhaseNext(s: TopoState, cs: seq<Container>, i: nat)
    requires i < |cs| && TopologyPhase(s, cs[..i]).Done?
    ensures TopologyPhase(s, cs[..i + 1]) == ContainerTopology(TopologyPhase(s, cs[..i]).state, cs[i])
  {
    assert cs[..i + 1][..i] == cs[..i];
  }

  /** The first loop of read_topology_from_plan_pro_file. */
  method ReadTopologies(t: Topology, cs: seq<Container>) returns (status: Status)
    modifies t`nodes, t`edges
    ensures RunOf(status, t.State()) == TopologyPhase(old(t.State()), cs)
  {
    ghost var s0 := t.State();
    var i := 0;
    while i < |cs|
      invariant 0 <= i <= |cs|
      invariant TopologyPhase(s0, cs[..i]) == Done(t.State())
    {
      TopologyPhaseNext(s0, cs, i);
      status := ReadContainerTopology(t, cs[i]);
      if status != Finished {
        TopologyPhaseStops(s0, cs, i + 1);
        return;
      }
      i := i + 1;
    }
    assert cs[..i] == cs;
    return Finished;
  }

  /** The second loop: the signals of every container. */
  method ReadAllSignals(t: Topology, cs: seq<Container>, cat: SignalReader.Catalogue) returns (status: Status)
    modifies t`edges, t`signals
    ensures RunOf(status, t.State()) == SignalPhase(old(t.State()), cs, cat)
  {
    ghost var s0 := t.State();
    var i := 0;
    while i < |cs|
      invariant 0 <= i <= |cs|
      invariant SignalPhase(s0, cs[..i], cat) == Done(t.State())
    {
      assert cs[..i + 1][..i] == cs[..i];
      status := SignalReader.ReadSignals(t, cs[i], cat);
      if status != Finished {
        SignalPhaseStops(s0, cs, cat, i + 1);
        return;
      }
      i := i + 1;
    }
    assert cs[..i] == cs;
    return Finished;
  }

  /** The third loop: the routes of every container. */
  method ReadAllRoutes(t: Topology, cs: seq<Container>)
    modifies t`routes
    ensures t.State() == RoutePhase(old(t.State()), cs)
  {
    ghost var s0 := t.State();
    var i := 0;
    while i < |cs|
      invariant 0 <= i <= |cs|
      invariant RoutePhase(s0, cs[..i]) == t.State()
    {
      assert cs[..i + 1][..i] == cs[..i];
      ReadRoutes(t, cs[i]);
      i := i + 1;
    }
    assert cs[..i] == cs;
  }

  /** The second and third loops, run once every topology is read. */
  method ReadSignalsAndRoutes(t: Topology, cs: seq<Container>, cat: SignalReader.Catalogue) returns (status: Status)
    modifies t`edges, t`signals, t`routes
    ensures RunOf(status, t.State()) == SignalsAndRoutes(old(t.State()), cs, cat)
  {
    status := ReadAllSignals(t, cs, cat);
    if status != Finished {
      return;
    }
    ReadAllRoutes(t, cs);
    status := Finished;
  }

  class PlanProReader110 {
    const fileName: string
    /** The parsed content of the file `fileName`. */
    const root: RootObject
    const catalogue: SignalReader.Catalogue
    const topology: Topology

    constructor (planProFileName: string, root: RootObject, catalogue: SignalReader.Catalogue)
      ensures fileName == FileNames.Normalised(planProFileName)
      ensures this.root == root && this.catalogue == catalogue
      ensures fresh(topology)
      ensures topology.name == FileNames.PathStem(fileName)
      ensures topology.createdWith == CreatedWith(root.werkzeugName, root.werkzeugVersion)
      ensures topology.State() == EmptyState
    {
      fileName := FileNames.Normalised(planProFileName);
      this.root := root;
      this.catalogue := catalogue;
      var stem := FileNames.PathStem(FileNames.Normalised(planProFileName));
      topology := new Topology(stem, CreatedWith(root.werkzeugName, root.werkzeugVersion));
    }

    method ReadTopologyFromPlanProFile() returns (status: Status)
      modifies topology`nodes, topology`edges, topology`signals, topology`routes
      ensures RunOf(status, topology.State()) == Import(old(topology.State()), root, catalogue)
    {
      var containers := Utils.GetContainer(root);
      if containers.None? {
        return Raised;
      }
      var cs := containers.value;
      status := ReadTopologies(topology, cs);
      if status != Finished {
        return;
      }
      status := ReadSignalsAndRoutes(topology, cs, catalogue);
    }
  }
}
