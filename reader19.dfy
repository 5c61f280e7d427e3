/**
 * PlanProReader19: imports a file of schema 1.9. For every container it reads
 * the nodes and the edges, splicing converter points into each edge's chain of
 * geo nodes; then the signals of every container through the shared filter;
 * then the routes of every container through RouteReader.
 *
 * reader19.py unpacks the four values of Utils.get_coordinates_of_geo_node
 * into two names at lines 36 and 92. The members named AsWritten model those
 * lines as they stand; the rest of the module reads x and y as the first two
 * values, which is what the code evidently intends.
 */
module Reader19 {
  import opened Wrappers
  import opened PlanProRecords
  import opened Yaramo
  import opened Runs
  import Utils
  import NodeReader
  import opened GeoChain
  import RouteReader
  import FixedSignals
  import FileNames

  /** The node loop as written: the unpacking at line 36 raises ValueError on
      the first TOP_Knoten, located or not. */
  function ReadNodesAsWritten(s: TopoState, points: seq<GeoPunkt>, ks: seq<TopKnoten>): Run
  {
    if ks == [] then Done(s) else Raises
  }

  /** One iteration of the node loop with x and y taken as the first two of
      the four values: a TOP_Knoten without coordinates is skipped. */
  function ReadNode(s: TopoState, points: seq<GeoPunkt>, k: TopKnoten): TopoState
  {
    var co := Utils.CoordinatesOfGeoNode(points, k.idGeoKnoten);
    if co.x.None? || co.y.None? then s
    else s.(nodes := s.nodes[k.uuid := NodeReader.NewNode(k, co.x.value, co.y.value)])
  }

  function ReadNodesFrom(s: TopoState, points: seq<GeoPunkt>, ks: seq<TopKnoten>): TopoState
    decreases |ks|
  {
    if ks == [] then s else ReadNode(ReadNodesFrom(s, points, ks[..|ks| - 1]), points, ks[|ks| - 1])
  }

  /** The corrected node loop reads exactly the nodes read_nodes of schema 1.10
      reads. */
  lemma {:induction false} ReadNodesAgree(s: TopoState, points: seq<GeoPunkt>, ks: seq<TopKnoten>)
    ensures ReadNodesFrom(s, points, ks) == NodeReader.ReadNodesFrom(s, points, ks)
    decreases |ks|
  {
    if ks != [] {
      ReadNodesAgree(s, points, ks[..|ks| - 1]);
      var k := ks[|ks| - 1];
      assert Utils.CoordinatesOfGeoNode(points, k.idGeoKnoten).x == NodeReader.CoordinatesOfGeoNode(points, k.idGeoKnoten).0;
      assert Utils.CoordinatesOfGeoNode(points, k.idGeoKnoten).y == NodeReader.CoordinatesOfGeoNode(points, k.idGeoKnoten).1;
    }
  }

  /** Any container with a TOP_Knoten makes the node loop as written raise,
      while the corrected loop stores every located TOP_Knoten. */
  lemma NodeUnpackRaises(s: TopoState, points: seq<GeoPunkt>, ks: seq<TopKnoten>)
    requires ks != []
    ensures ReadNodesAsWritten(s, points, ks) == Raises
    ensures forall u :: u in ReadNodesFrom(s, points, ks).nodes <==>
      u in s.nodes || exists k :: k in ks && k.uuid == u && NodeReader.Located(points, k)
  {
    ReadNodesAgree(s, points, ks);
    NodeReader.ReadNodesKeys(s, points, ks);
  }

  method ReadNodes(t: Topology, c: Container)
    modifies t`nodes
    ensures t.State() == ReadNodesFrom(old(t.State()), c.geoPunkt, c.topKnoten)
  {
    ghost var s0 := t.State();
    var i := 0;
    while i < |c.topKnoten|
      invariant 0 <= i <= |c.topKnoten|
      invariant t.State() == ReadNodesFrom(s0, c.geoPunkt, c.topKnoten[..i])
    {
      var k := c.topKnoten[i];
      assert c.topKnoten[..i + 1][..i] == c.topKnoten[..i];
      var co := Utils.CoordinatesOfGeoNode(c.geoPunkt, k.idGeoKnoten);
      if co.x.Some? && co.y.Some? {
        t.AddNode(NodeReader.NewNode(k, co.x.value, co.y.value));
      }
      i := i + 1;
    }
    assert c.topKnoten[..i] == c.topKnoten;
  }

  /** Both calls of Utils.set_connection: each end node's slot for its tag
      gets the edge. */
  function ConnectToEdge(s: TopoState, k: TopKante): TopoState
  {
    ConnectNode(ConnectNode(s, k.knotenA, k.anschlussA, k.uuid), k.knotenB, k.anschlussB, k.uuid)
  }

  /** The chain of the TOP_Kante from node_a's geo node towards node_b's. */
  function EdgeChain(s: TopoState, c: Container, k: TopKante, geo: Utils.Geometry): Chain19
    requires Walkable(s, c, k)
  {
    Chain19Walk(c.geoPunkt, Utils.GeoEdgesByTopEdgeUuid(c.geoKante, k.uuid), GeoUuid(s.nodes[k.knotenA]).value,
                GeoUuid(s.nodes[k.knotenB]), geo)
  }

  /** One iteration of the TOP_Kante loop: both end nodes are connected to the
      edge first; the edge is added whenever the walk ends, and a broken chain
      or equally distant converter ends raise. */
  function ReadEdge(s: TopoState, c: Container, k: TopKante, geo: Utils.Geometry): Run
  {
    if !Walkable(s, c, k) then Raises
    else
      var connected := ConnectToEdge(s, k);
      match EdgeChain(s, c, k, geo)
      case Built(geoNodes) => Done(connected.(edges := connected.edges[k.uuid := NewEdge(k, geoNodes)]))
      case Failed => Raises
      case Endless => Hangs
  }

  /** The TOP_Kante loop as written: the unpacking at line 92 raises on the
      first pass of the walk, so the edge is only built when node_b's geo node
      is the far end of the first GEO_Kante. */
  function ReadEdgeAsWritten(s: TopoState, c: Container, k: TopKante, geo: Utils.Geometry): Run
  {
    if !Walkable(s, c, k) then Raises
    else
      var segs := Utils.GeoEdgesByTopEdgeUuid(c.geoKante, k.uuid);
      var a := GeoUuid(s.nodes[k.knotenA]).value;
      var first := FirstTouching(segs, a).value;
      match Utils.IntermediateGeoNodes(c.geoPunkt, first, a, geo)
      case SameDistance => Raises
      case Oriented(head) =>
        if Some(Other(a, first)) == GeoUuid(s.nodes[k.knotenB]) then
          var connected := ConnectToEdge(s, k);
          Done(connected.(edges := connected.edges[k.uuid := NewEdge(k, head)]))
        else Raises
  }

  /** On a simple chain of two or more GEO_Kanten the edge loop as written
      raises, while the corrected loop adds the edge with the interior geo
      nodes of the chain. */
  lemma EdgeUnpackRaises(s: TopoState, c: Container, k: TopKante, path: seq<string>, geo: Utils.Geometry)
    requires geo.converter.None?
    requires SimpleChain(Utils.GeoEdgesByTopEdgeUuid(c.geoKante, k.uuid), path) && |path| >= 3
    requires k.knotenA in s.nodes && GeoUuid(s.nodes[k.knotenA]) == Some(path[0])
    requires k.knotenB in s.nodes && GeoUuid(s.nodes[k.knotenB]) == Some(path[|path| - 1])
    ensures ReadEdgeAsWritten(s, c, k, geo) == Raises
    ensures ReadEdge(s, c, k, geo).Done?
    ensures ReadEdge(s, c, k, geo).state.edges
      == ConnectToEdge(s, k).edges[k.uuid := NewEdge(k, InteriorGeoNodes(c.geoPunkt, path[1..|path| - 1]))]
  {
    var segs := Utils.GeoEdgesByTopEdgeUuid(c.geoKante, k.uuid);
    ChainWalkOnSimpleChain(segs, path);
    Chain19WithoutConverter(c.geoPunkt, segs, path[0], Some(path[|path| - 1]), geo);
    var first := FirstTouching(segs, path[0]).value;
    HopForward(segs, path, 0, first);
    DistinctAt(path, 1, |path| - 1);
  }

  /** Without a converter the edge of a TOP_Kante carries exactly the geo
      nodes of the GEO_Knoten the walk of schema 1.10 passes, and the edge
      raises exactly where that walk stops at a broken chain. */
  lemma ReadEdgeWithoutConverter(s: TopoState, c: Container, k: TopKante, geo: Utils.Geometry)
    requires Walkable(s, c, k) && geo.converter.None?
    ensures var w := ChainWalk(Utils.GeoEdgesByTopEdgeUuid(c.geoKante, k.uuid), GeoUuid(s.nodes[k.knotenA]).value,
                               GeoUuid(s.nodes[k.knotenB]));
      && (ReadEdge(s, c, k, geo) == Raises <==> w.Broken?)
      && (ReadEdge(s, c, k, geo) == Hangs <==> w.OutOfFuel?)
      && (w.Reached? ==>
            ReadEdge(s, c, k, geo)
              == Done(ConnectToEdge(s, k).(edges := s.edges[k.uuid := NewEdge(k, InteriorGeoNodes(c.geoPunkt, w.interior))])))
  {
    Chain19WithoutConverter(c.geoPunkt, Utils.GeoEdgesByTopEdgeUuid(c.geoKante, k.uuid),
                            GeoUuid(s.nodes[k.knotenA]).value, GeoUuid(s.nodes[k.knotenB]), geo);
  }

  /** A TOP_Kante raises when its walk cannot start or the chain fails, and
      hangs only when the walk never ends. Otherwise each end node's slot for
      its tag holds the edge, every node keeps its uuid, geo node and name,
      and the edge is stored between the two nodes with the TOP_Kante's length
      and the chain's geo nodes; no other edge, signal or route changes. */
  lemma ReadEdgeEffect(s: TopoState, c: Container, k: TopKante, geo: Utils.Geometry)
    ensures ReadEdge(s, c, k, geo) == Raises <==>
      !Walkable(s, c, k) || EdgeChain(s, c, k, geo).Failed?
    ensures ReadEdge(s, c, k, geo) == Hangs <==>
      Walkable(s, c, k) && EdgeChain(s, c, k, geo).Endless?
    ensures ReadEdge(s, c, k, geo).Done? ==>
      var r := ReadEdge(s, c, k, geo).state;
      && Walkable(s, c, k) && EdgeChain(s, c, k, geo).Built?
      && r.signals == s.signals && r.routes == s.routes
      && r.nodes.Keys == s.nodes.Keys
      && Slot(r.nodes[k.knotenA], k.anschlussA) == Some(k.uuid)
      && Slot(r.nodes[k.knotenB], k.anschlussB) == Some(k.uuid)
      && (forall u :: u in s.nodes ==>
            && r.nodes[u].uuid == s.nodes[u].uuid
            && r.nodes[u].geoNode == s.nodes[u].geoNode
            && r.nodes[u].name == s.nodes[u].name)
      && (forall u :: u in s.nodes && u != k.knotenA && u != k.knotenB ==> r.nodes[u] == s.nodes[u])
      && (k.knotenA != k.knotenB ==>
            && r.nodes[k.knotenA] == Connected(s.nodes[k.knotenA], k.anschlussA, k.uuid)
            && r.nodes[k.knotenB] == Connected(s.nodes[k.knotenB], k.anschlussB, k.uuid))
      && (k.knotenA == k.knotenB ==>
            r.nodes[k.knotenA] == Connected(Connected(s.nodes[k.knotenA], k.anschlussA, k.uuid), k.anschlussB, k.uuid))
      && r.edges == s.edges[k.uuid := NewEdge(k, EdgeChain(s, c, k, geo).geoNodes)]
  {
    if ReadEdge(s, c, k, geo).Done? {
      ConnectPair(s, k.knotenA, k.anschlussA, k.uuid, k.knotenB, k.anschlussB, k.uuid);
    }
  }

  /** The chain code of reader19.py: the converter points of the first segment,
      then, until node_b's geo node is reached, the geo node passed and the
      converter points of the next segment. */
  method WalkGeoChain(points: seq<GeoPunkt>, segs: seq<GeoKante>, a: string, b: Option<string>,
                      geo: Utils.Geometry)
    returns (end: Chain19)
    requires FirstTouching(segs, a).Some?
    ensures end == Chain19Walk(points, segs, a, b, geo)
  {
    var first := FirstTouching(segs, a).value;
    var head := Utils.IntermediateGeoNodes(points, first, a, geo);
    if head.SameDistance? {
      return Failed;
    }
    var geoNodes := head.nodes;
    var prev2 := a;
    var prev := Other(a, first);
    var fuel := Fuel(segs);
    while Some(prev) != b
      invariant Chain19Walk(points, segs, a, b, geo)
             == Extend(geoNodes, Walk19From(points, segs, prev2, prev, b, geo, fuel))
      decreases fuel
    {
      if fuel == 0 {
        return Endless;
      }
      var co := Utils.CoordinatesOfGeoNode(points, prev);
      var node := GeoNode(Some(prev), co.x, co.y, None, None);
      var next := NextSegment(segs, prev, prev2);
      if next.None? {
        return Failed;
      }
      var mid := Utils.IntermediateGeoNodes(points, next.value, prev, geo);
      if mid.SameDistance? {
        return Failed;
      }
      ExtendTwice(geoNodes, [node] + mid.nodes,
                  Walk19From(points, segs, prev, Other(prev, next.value), b, geo, fuel - 1));
      geoNodes := geoNodes + ([node] + mid.nodes);
      prev2 := prev;
      prev := Other(prev2, next.value);
      fuel := fuel - 1;
    }
    assert geoNodes + [] == geoNodes;
    return Built(geoNodes);
  }

  method ReadOneEdge(t: Topology, c: Container, k: TopKante, geo: Utils.Geometry)
    returns (status: Status)
    modifies t`nodes, t`edges
    ensures RunOf(status, t.State()) == ReadEdge(old(t.State()), c, k, geo)
  {
    if k.knotenA !in t.nodes || k.knotenB !in t.nodes {
      return Raised;
    }
    var nodeA := t.nodes[k.knotenA];
    var nodeB := t.nodes[k.knotenB];
    ghost var s0 := t.State();
    t.SetConnection(k.anschlussA, k.knotenA, k.uuid);
    t.SetConnection(k.anschlussB, k.knotenB, k.uuid);
    var segs := Utils.AllGeoEdgesByTopEdgeUuid(c.geoKante, k.uuid);
    var a := GeoUuid(nodeA);
    if a.None? || FirstTouching(segs, a.value).None? || nodeB.geoNode.None? {
      return Raised;
    }
    assert t.State() == ConnectToEdge(s0, k);
    var end := WalkGeoChain(c.geoPunkt, segs, a.value, GeoUuid(nodeB), geo);
    match end
    case Built(geoNodes) =>
      t.AddEdge(NewEdge(k, geoNodes));
      return Finished;
    case Failed =>
      return Raised;
    case Endless =>
      return Hung;
  }

  function ReadEdgesFrom(s: TopoState, c: Container, ks: seq<TopKante>, geo: Utils.Geometry): Run
    decreases |ks|
  {
    if ks == [] then Done(s)
    else
      match ReadEdgesFrom(s, c, ks[..|ks| - 1], geo)
      case Done(s') => ReadEdge(s', c, ks[|ks| - 1], geo)
      case other => other
  }

  lemma {:induction false} ReadEdgesStops(s: TopoState, c: Container, ks: seq<TopKante>, geo: Utils.Geometry, i: nat)
    requires i <= |ks| && !ReadEdgesFrom(s, c, ks[..i], geo).Done?
    ensures ReadEdgesFrom(s, c, ks, geo) == ReadEdgesFrom(s, c, ks[..i], geo)
    decreases |ks| - i
  {
    if i < |ks| {
      assert ks[..i + 1][..i] == ks[..i];
      ReadEdgesStops(s, c, ks, geo, i + 1);
    } else {
      assert ks[..i] == ks;
    }
  }

  method ReadEdges(t: Topology, c: Container, geo: Utils.Geometry) returns (status: Status)
    modifies t`nodes, t`edges
    ensures RunOf(status, t.State()) == ReadEdgesFrom(old(t.State()), c, c.topKante, geo)
  {
    ghost var s0 := t.State();
    var i := 0;
    while i < |c.topKante|
      invariant 0 <= i <= |c.topKante|
      invariant ReadEdgesFrom(s0, c, c.topKante[..i], geo) == Done(t.State())
    {
      assert c.topKante[..i + 1][..i] == c.topKante[..i];
      status := ReadOneEdge(t, c, c.topKante[i], geo);
      if status != Finished {
        ReadEdgesStops(s0, c, c.topKante, geo, i + 1);
        return;
      }
      i := i + 1;
    }
    assert c.topKante[..i] == c.topKante;
    return Finished;
  }

  /** read_topology_from_container: the nodes, then the edges. */
  function ContainerTopology(s: TopoState, c: Container, geo: Utils.Geometry): Run
  {
    ReadEdgesFrom(ReadNodesFrom(s, c.geoPunkt, c.topKnoten), c, c.topKante, geo)
  }

  method ReadTopologyFromContainer(t: Topology, c: Container, geo: Utils.Geometry)
    returns (status: Status)
    modifies t`nodes, t`edges
    ensures RunOf(status, t.State()) == ContainerTopology(old(t.State()), c, geo)
  {
    ReadNodes(t, c);
    status := ReadEdges(t, c, geo);
  }

  function TopologyPhase(s: TopoState, cs: seq<Container>, geo: Utils.Geometry): Run
    decreases |cs|
  {
    if cs == [] then Done(s)
    else
      match TopologyPhase(s, cs[..|cs| - 1], geo)
      case Done(s') => ContainerTopology(s', cs[|cs| - 1], geo)
      case other => other
  }

  function RoutePhase(s: TopoState, cs: seq<Container>): TopoState
    decreases |cs|
  {
    if cs == [] then s else RouteReader.ReadRoutesFrom(RoutePhase(s, cs[..|cs| - 1]), cs[|cs| - 1].fahrwege)
  }

  /** read_topology_from_plan_pro_file: no container raises ImportError;
      otherwise the topology of every container, then the signals of every
      container, then the routes of every container. */
  function Import(s: TopoState, root: RootObject, geo: Utils.Geometry): Run
  {
    match Utils.GetContainer(root)
    case None => Raises
    case Some(cs) =>
      match TopologyPhase(s, cs, geo)
      case Done(s1) => SignalsAndRoutes(s1, cs)
      case other => other
  }

  function SignalsAndRoutes(s: TopoState, cs: seq<Container>): Run
  {
    match FixedSignals.SignalPhase(s, cs)
    case Done(s') => Done(RoutePhase(s', cs))
    case other => other
  }

  lemma {:induction false} TopologyPhaseStops(s: TopoState, cs: seq<Container>, geo: Utils.Geometry, i: nat)
    requires i <= |cs| && !TopologyPhase(s, cs[..i], geo).Done?
    ensures TopologyPhase(s, cs, geo) == TopologyPhase(s, cs[..i], geo)
    decreases |cs| - i
  {
    if i < |cs| {
      assert cs[..i + 1][..i] == cs[..i];
      TopologyPhaseStops(s, cs, geo, i + 1);
    } else {
      assert cs[..i] == cs;
    }
  }

  lemma TopologyPhaseNext(s: TopoState, cs: seq<Container>, geo: Utils.Geometry, i: nat)
    requires i < |cs| && TopologyPhase(s, cs[..i], geo).Done?
    ensures TopologyPhase(s, cs[..i + 1], geo) == ContainerTopology(TopologyPhase(s, cs[..i], geo).state, cs[i], geo)
  {
    assert cs[..i + 1][..i] == cs[..i];
  }

  /** The first loop of read_topology_from_plan_pro_file. */
  method ReadTopologies(t: Topology, cs: seq<Container>, geo: Utils.Geometry)
    returns (status: Status)
    modifies t`nodes, t`edges
    ensures RunOf(status, t.State()) == TopologyPhase(old(t.State()), cs, geo)
  {
    ghost var s0 := t.State();
    var i := 0;
    while i < |cs|
      invariant 0 <= i <= |cs|
      invariant TopologyPhase(s0, cs[..i], geo) == Done(t.State())
    {
      TopologyPhaseNext(s0, cs, geo, i);
      status := ReadTopologyFromContainer(t, cs[i], geo);
      if status != Finished {
        TopologyPhaseStops(s0, cs, geo, i + 1);
        return;
      }
      i := i + 1;
    }
    assert cs[..i] == cs;
    return Finished;
  }

  /** The third loop: RouteReader on every container. */
  method ReadAllRoutes(t: Topology, cs: seq<Container>)
    modifies t`routes
    ensures t.State() == RoutePhase(old(t.State()), cs)
  {
    ghost var s0 := t.State();
    var i := 0;
    while i < |cs|
      invariant 0 <= i <= |cs|
      invariant RoutePhase(s0, cs[..i]) == t.State()
    {
      assert cs[..i + 1][..i] == cs[..i];
      RouteReader.ReadRoutes(cs[i], t);
      i := i + 1;
    }
    assert cs[..i] == cs;
  }

  /** A TOP_Kante keeps a bare topology bare: the edge joins two nodes. */
  lemma ReadEdgeKeepsBare(s: TopoState, c: Container, k: TopKante, geo: Utils.Geometry)
    requires Bare(s) && ReadEdge(s, c, k, geo).Done?
    ensures Bare(ReadEdge(s, c, k, geo).state)
  {
    ReadEdgeEffect(s, c, k, geo);
  }

  lemma {:induction false} ReadEdgesKeepBare(s: TopoState, c: Container, ks: seq<TopKante>, geo: Utils.Geometry)
    requires Bare(s) && ReadEdgesFrom(s, c, ks, geo).Done?
    ensures Bare(ReadEdgesFrom(s, c, ks, geo).state)
    decreases |ks|
  {
    if ks != [] {
      ReadEdgesKeepBare(s, c, ks[..|ks| - 1], geo);
      ReadEdgeKeepsBare(ReadEdgesFrom(s, c, ks[..|ks| - 1], geo).state, c, ks[|ks| - 1], geo);
    }
  }

  lemma {:induction false} TopologyPhaseKeepsBare(s: TopoState, cs: seq<Container>, geo: Utils.Geometry)
    requires Bare(s) && TopologyPhase(s, cs, geo).Done?
    ensures Bare(TopologyPhase(s, cs, geo).state)
    decreases |cs|
  {
    if cs != [] {
      var s' := TopologyPhase(s, cs[..|cs| - 1], geo).state;
      TopologyPhaseKeepsBare(s, cs[..|cs| - 1], geo);
      var c := cs[|cs| - 1];
      ReadNodesAgree(s', c.geoPunkt, c.topKnoten);
      NodeReader.ReadNodesKeepBare(s', c.geoPunkt, c.topKnoten);
      ReadEdgesKeepBare(ReadNodesFrom(s', c.geoPunkt, c.topKnoten), c, c.topKante, geo);
    }
  }

  lemma {:induction false} RoutePhaseKeepsValid(s: TopoState, cs: seq<Container>)
    requires Valid(s)
    ensures Valid(RoutePhase(s, cs))
    decreases |cs|
  {
    if cs != [] {
      RoutePhaseKeepsValid(s, cs[..|cs| - 1]);
      RouteReader.ReadRoutesKeepValid(RoutePhase(s, cs[..|cs| - 1]), cs[|cs| - 1].fahrwege);
    }
  }

  /** Every topology a schema 1.9 import into a fresh topology finishes with
      is valid. */
  lemma ImportValid(root: RootObject, geo: Utils.Geometry)
    requires Import(EmptyState, root, geo).Done?
    ensures Valid(Import(EmptyState, root, geo).state)
  {
    var cs := Utils.GetContainer(root).value;
    TopologyPhaseKeepsBare(EmptyState, cs, geo);
    var s1 := TopologyPhase(EmptyState, cs, geo).state;
    FixedSignals.SignalPhaseKeepsValid(s1, cs);
    RoutePhaseKeepsValid(FixedSignals.SignalPhase(s1, cs).state, cs);
  }

  /** The signal loop and then the route loop, run once every topology is read. */
  method ReadSignalsAndRoutes(t: Topology, cs: seq<Container>) returns (status: Status)
    modifies t`edges, t`signals, t`routes
    ensures RunOf(status, t.State()) == SignalsAndRoutes(old(t.State()), cs)
  {
    status := FixedSignals.ReadAllSignals(t, cs);
    if status != Finished {
      return;
    }
    ReadAllRoutes(t, cs);
    status := Finished;
  }

  class PlanProReader19 {
    const fileName: string
    /** The geo converter, or None, with the distance that orients its output. */
    const geometry: Utils.Geometry
    const topology: Topology

    constructor (planProFileName: string, geometry: Utils.Geometry)
      ensures fileName == FileNames.Normalised(planProFileName)
      ensures this.geometry == geometry
      ensures fresh(topology)
      ensures topology.name == FileNames.Name19(fileName)
      ensures topology.State() == EmptyState
    {
      fileName := FileNames.Normalised(planProFileName);
      this.geometry := geometry;
      topology := new Topology(FileNames.Name19(FileNames.Normalised(planProFileName)), "");
    }

    /** `root` is the parsed content of the file `fileName`. */
    method ReadTopologyFromPlanProFile(root: RootObject) returns (status: Status)
      modifies topology`nodes, topology`edges, topology`signals, topology`routes
      ensures RunOf(status, topology.State()) == Import(old(topology.State()), root, geometry)
    {
      var containers := Utils.GetContainer(root);
      if containers.None? {
        return Raised;
      }
      var cs := containers.value;
      status := ReadTopologies(topology, cs, geometry);
      if status != Finished {
        return;
      }
      status := ReadSignalsAndRoutes(topology, cs);
    }
  }
}
