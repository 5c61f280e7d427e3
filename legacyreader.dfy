/**
 * PlanProReader (reader.py), the reader that predates the schema-specific
 * ones. It reads the containers of LST_Planung only. Every TOP_Knoten becomes
 * a node without a geo node; every TOP_Kante becomes an edge between its two
 * nodes, without intermediate geo nodes, after each end is connected to the
 * other. Then come the signals, through the filter shared with schema 1.9.
 * It reads no routes.
 */
module LegacyReader {
  import opened Wrappers
  import opened PlanProRecords
  import opened Yaramo
  import opened Runs
  import GeoChain
  import Reader110
  import FixedSignals
  import FileNames

  /** `Node(uuid=...)`: no geo node, no connection, no name. */
  function NewNode(k: TopKnoten): Node
  {
    Node(k.uuid, None, None, None, None, None)
  }

  /** The TOP_Knoten loop of read_topology_from_container. */
  function ReadNodesFrom(s: TopoState, ks: seq<TopKnoten>): TopoState
    decreases |ks|
  {
    if ks == [] then s
    else
      var s' := ReadNodesFrom(s, ks[..|ks| - 1]);
      s'.(nodes := s'.nodes[ks[|ks| - 1].uuid := NewNode(ks[|ks| - 1])])
  }

  /** Every TOP_Knoten becomes the node stored under its uuid, whatever its
      geo data; nodes stored before keep their place unless a record reuses
      their uuid; nothing else changes. */
  lemma ReadNodesEffect(s: TopoState, ks: seq<TopKnoten>)
    ensures var r := ReadNodesFrom(s, ks);
      && r.edges == s.edges && r.signals == s.signals && r.routes == s.routes
      && r.nodes.Keys == s.nodes.Keys + (set k | k in ks :: k.uuid)
      && (forall k :: k in ks ==> r.nodes[k.uuid] == NewNode(k))
      && (forall u :: u in s.nodes && (forall k :: k in ks ==> k.uuid != u) ==> r.nodes[u] == s.nodes[u])
  {
    ReadNodesOnlyNodes(s, ks);
    ReadNodesKeys(s, ks);
    ReadNodesStored(s, ks);
  }

  lemma {:induction false} ReadNodesOnlyNodes(s: TopoState, ks: seq<TopKnoten>)
    ensures var r := ReadNodesFrom(s, ks);
      r.edges == s.edges && r.signals == s.signals && r.routes == s.routes
    decreases |ks|
  {
    if ks != [] {
      ReadNodesOnlyNodes(s, ks[..|ks| - 1]);
    }
  }

  lemma {:induction false} ReadNodesKeys(s: TopoState, ks: seq<TopKnoten>)
    ensures ReadNodesFrom(s, ks).nodes.Keys == s.nodes.Keys + (set k | k in ks :: k.uuid)
    decreases |ks|
  {
    if ks != [] {
      var init, last := ks[..|ks| - 1], ks[|ks| - 1];
      ReadNodesKeys(s, init);
      assert ks == init + [last];
      assert (set k | k in ks :: k.uuid) == (set k | k in init :: k.uuid) + {last.uuid};
    }
  }

  lemma {:induction false} ReadNodesStored(s: TopoState, ks: seq<TopKnoten>)
    ensures var r := ReadNodesFrom(s, ks);
      && (forall k :: k in ks ==> k.uuid in r.nodes && r.nodes[k.uuid] == NewNode(k))
      && (forall u :: u in s.nodes && (forall k :: k in ks ==> k.uuid != u) ==> u in r.nodes && r.nodes[u] == s.nodes[u])
    decreases |ks|
  {
    if ks != [] {
      var init, last := ks[..|ks| - 1], ks[|ks| - 1];
      ReadNodesStored(s, init);
      assert forall k :: k in ks <==> k in init || k == last by {
        assert ks == init + [last];
      }
    }
  }

  method ReadNodes(t: Topology, ks: seq<TopKnoten>)
    modifies t`nodes
    ensures t.State() == ReadNodesFrom(old(t.State()), ks)
  {
    ghost var s0 := t.State();
    var i := 0;
    while i < |ks|
      invariant 0 <= i <= |ks|
      invariant t.State() == ReadNodesFrom(s0, ks[..i])
    {
      assert ks[..i + 1][..i] == ks[..i];
      t.AddNode(NewNode(ks[i]));
      i := i + 1;
    }
    assert ks[..i] == ks;
  }

  /** One iteration of the TOP_Kante loop: looking up an end node that is not
      stored raises KeyError; otherwise node_a is connected to node_b and
      node_b to node_a, and the edge is added. */
  function ReadEdge(s: TopoState, k: TopKante): Run
  {
    if k.knotenA !in s.nodes || k.knotenB !in s.nodes then Raises
    else
      var connected := Reader110.ConnectEnds(s, k);
      Done(connected.(edges := connected.edges[k.uuid := GeoChain.NewEdge(k, [])]))
  }

  /** A TOP_Kante raises exactly when one of its nodes is missing. Otherwise
      node_a's slot for TOP_Anschluss_A holds node_b and node_b's slot for
      TOP_Anschluss_B holds node_a, every node keeps its uuid, geo node and
      name, the other nodes are untouched, and the edge `k.uuid` between the
      two nodes, of the TOP_Kante's length and with no geo nodes and no
      signals, is added; signals and routes stay. */
  lemma ReadEdgeEffect(s: TopoState, k: TopKante)
    ensures ReadEdge(s, k) == Raises <==> k.knotenA !in s.nodes || k.knotenB !in s.nodes
    ensures ReadEdge(s, k).Done? || ReadEdge(s, k) == Raises
    ensures ReadEdge(s, k).Done? ==>
      var r := ReadEdge(s, k).state;
      && r.signals == s.signals && r.routes == s.routes
      && r.nodes.Keys == s.nodes.Keys
      && Slot(r.nodes[k.knotenA], k.anschlussA) == Some(k.knotenB)
      && Slot(r.nodes[k.knotenB], k.anschlussB) == Some(k.knotenA)
      && (forall u :: u in s.nodes ==>
            && r.nodes[u].uuid == s.nodes[u].uuid
            && r.nodes[u].geoNode == s.nodes[u].geoNode
            && r.nodes[u].name == s.nodes[u].name)
      && (forall u :: u in s.nodes && u != k.knotenA && u != k.knotenB ==> r.nodes[u] == s.nodes[u])
      && (k.knotenA != k.knotenB ==>
            && r.nodes[k.knotenA] == Connected(s.nodes[k.knotenA], k.anschlussA, k.knotenB)
            && r.nodes[k.knotenB] == Connected(s.nodes[k.knotenB], k.anschlussB, k.knotenA))
      && (k.knotenA == k.knotenB ==>
            r.nodes[k.knotenA] == Connected(Connected(s.nodes[k.knotenA], k.anschlussA, k.knotenB), k.anschlussB, k.knotenA))
      && r.edges == s.edges[k.uuid := Edge(k.uuid, k.knotenA, k.knotenB, k.laenge, [], [])]
  {
    if k.knotenA in s.nodes && k.knotenB in s.nodes {
      ConnectPair(s, k.knotenA, k.anschlussA, k.knotenB, k.knotenB, k.anschlussB, k.knotenA);
    }
  }

  /** The part of ReadEdgeEffect the TOP_Kante loop needs: which uuids are
      stored afterwards. */
  lemma ReadEdgeShape(s: TopoState, k: TopKante)
    ensures ReadEdge(s, k) == Raises <==> k.knotenA !in s.nodes || k.knotenB !in s.nodes
    ensures ReadEdge(s, k).Done? || ReadEdge(s, k) == Raises
    ensures ReadEdge(s, k).Done? ==>
      var r := ReadEdge(s, k).state;
      && r.signals == s.signals && r.routes == s.routes
      && r.nodes.Keys == s.nodes.Keys
      && r.edges.Keys == s.edges.Keys + {k.uuid}
  {
    ReadEdgeEffect(s, k);
  }

  method ReadOneEdge(t: Topology, k: TopKante) returns (status: Status)
    modifies t`nodes, t`edges
    ensures RunOf(status, t.State()) == ReadEdge(old(t.State()), k)
  {
    if k.knotenA !in t.nodes || k.knotenB !in t.nodes {
      return Raised;
    }
    t.SetConnection(k.anschlussA, k.knotenA, k.knotenB);
    t.SetConnection(k.anschlussB, k.knotenB, k.knotenA);
    t.AddEdge(GeoChain.NewEdge(k, []));
    return Finished;
  }

  function ReadEdgesFrom(s: TopoState, ks: seq<TopKante>): Run
    decreases |ks|
  {
    if ks == [] then Done(s)
    else
      match ReadEdgesFrom(s, ks[..|ks| - 1])
      case Done(s') => ReadEdge(s', ks[|ks| - 1])
      case other => other
  }

  lemma {:induction false} ReadEdgesStops(s: TopoState, ks: seq<TopKante>, i: nat)
    requires i <= |ks| && !ReadEdgesFrom(s, ks[..i]).Done?
    ensures ReadEdgesFrom(s, ks) == ReadEdgesFrom(s, ks[..i])
    decreases |ks| - i
  {
    if i < |ks| {
      assert ks[..i + 1][..i] == ks[..i];
      ReadEdgesStops(s, ks, i + 1);
    } else {
      assert ks[..i] == ks;
    }
  }

  lemma ReadEdgesNext(s: TopoState, ks: seq<TopKante>, i: nat)
    requires i < |ks| && ReadEdgesFrom(s, ks[..i]).Done?
    ensures ReadEdgesFrom(s, ks[..i + 1]) == ReadEdge(ReadEdgesFrom(s, ks[..i]).state, ks[i])
  {
    assert ks[..i + 1][..i] == ks[..i];
  }

  method ReadEdges(t: Topology, ks: seq<TopKante>) returns (status: Status)
    modifies t`nodes, t`edges
    ensures RunOf(status, t.State()) == ReadEdgesFrom(old(t.State()), ks)
  {
    ghost var s0 := t.State();
    var i := 0;
    while i < |ks|
      invariant 0 <= i <= |ks|
      invariant ReadEdgesFrom(s0, ks[..i]) == Done(t.State())
    {
      ReadEdgesNext(s0, ks, i);
      status := ReadOneEdge(t, ks[i]);
      if status != Finished {
        ReadEdgesStops(s0, ks, i + 1);
        return;
      }
      i := i + 1;
    }
    assert ks[..i] == ks;
    return Finished;
  }

  /** The TOP_Kante loop never hangs; it raises exactly when some TOP_Kante
      names a node that is not stored (the loop adds no nodes). Otherwise every
      TOP_Kante's uuid is an edge, no other edge is added, the node uuids stay
      and signals and routes are unchanged. */
  lemma {:induction false} ReadEdgesOutcome(s: TopoState, ks: seq<TopKante>)
    ensures ReadEdgesFrom(s, ks).Done? || ReadEdgesFrom(s, ks) == Raises
    ensures ReadEdgesFrom(s, ks) == Raises
      <==> exists k :: k in ks && (k.knotenA !in s.nodes || k.knotenB !in s.nodes)
    ensures ReadEdgesFrom(s, ks).Done? ==>
      var r := ReadEdgesFrom(s, ks).state;
      && r.nodes.Keys == s.nodes.Keys
      && r.edges.Keys == s.edges.Keys + (set k | k in ks :: k.uuid)
      && r.signals == s.signals && r.routes == s.routes
    decreases |ks|
  {
    if ks != [] {
      var init := ks[..|ks| - 1];
      var last := ks[|ks| - 1];
      ReadEdgesOutcome(s, init);
      assert forall k :: k in ks <==> k in init || k == last by {
        assert ks == init + [last];
      }
      if ReadEdgesFrom(s, init).Done? {
        ReadEdgeShape(ReadEdgesFrom(s, init).state, last);
      }
    }
  }

  /** read_topology_from_container: the nodes, then the edges. */
  function ContainerTopology(s: TopoState, c: Container): Run
  {
    ReadEdgesFrom(ReadNodesFrom(s, c.topKnoten), c.topKante)
  }

  method ReadTopologyFromContainer(t: Topology, c: Container) returns (status: Status)
    modifies t`nodes, t`edges
    ensures RunOf(status, t.State()) == ContainerTopology(old(t.State()), c)
  {
    ReadNodes(t, c.topKnoten);
    status := ReadEdges(t, c.topKante);
  }

  function TopologyPhase(s: TopoState, cs: seq<Container>): Run
    decreases |cs|
  {
    if cs == [] then Done(s)
    else
      match TopologyPhase(s, cs[..|cs| - 1])
      case Done(s') => ContainerTopology(s', cs[|cs| - 1])
      case other => other
  }

  lemma {:induction false} TopologyPhaseStops(s: TopoState, cs: seq<Container>, i: nat)
    requires i <= |cs| && !TopologyPhase(s, cs[..i]).Done?
    ensures TopologyPhase(s, cs) == TopologyPhase(s, cs[..i])
    decreases |cs| - i
  {
    if i < |cs| {
      assert cs[..i + 1][..i] == cs[..i];
      TopologyPhaseStops(s, cs, i + 1);
    } else {
      assert cs[..i] == cs;
    }
  }

  /** The first loop of read_topology_from_plan_pro_file. */
  method ReadTopologies(t: Topology, cs: seq<Container>) returns (status: Status)
    modifies t`nodes, t`edges
    ensures RunOf(status, t.State()) == TopologyPhase(old(t.State()), cs)
  {
    ghost var s0 := t.State();
    var i := 0;
    while i < |cs|
      invariant 0 <= i <= |cs|
      invariant TopologyPhase(s0, cs[..i]) == Done(t.State())
    {
      assert cs[..i + 1][..i] == cs[..i];
      status := ReadTopologyFromContainer(t, cs[i]);
      if status != Finished {
        TopologyPhaseStops(s0, cs, i + 1);
        return;
      }
      i := i + 1;
    }
    assert cs[..i] == cs;
    return Finished;
  }

  /** read_topology_from_plan_pro_file: without LST_Planung the attribute
      access raises; otherwise the topology of every Ausgabe_Fachdaten
      container, then the signals of every one of them. */
  function Import(s: TopoState, root: RootObject): Run
  {
    match root.lstPlanung
    case None => Raises
    case Some(cs) =>
      match TopologyPhase(s, cs)
      case Done(s1) => FixedSignals.SignalPhase(s1, cs)
      case other => other
  }

  lemma ReadNodesKeepBare(s: TopoState, ks: seq<TopKnoten>)
    requires Bare(s)
    ensures Bare(ReadNodesFrom(s, ks))
  {
    ReadNodesEffect(s, ks);
  }

  lemma ReadEdgeKeepsBare(s: TopoState, k: TopKante)
    requires Bare(s) && ReadEdge(s, k).Done?
    ensures Bare(ReadEdge(s, k).state)
  {
    ReadEdgeEffect(s, k);
  }

  lemma {:induction false} ReadEdgesKeepBare(s: TopoState, ks: seq<TopKante>)
    requires Bare(s) && ReadEdgesFrom(s, ks).Done?
    ensures Bare(ReadEdgesFrom(s, ks).state)
    decreases |ks|
  {
    if ks != [] {
      ReadEdgesKeepBare(s, ks[..|ks| - 1]);
      ReadEdgeKeepsBare(ReadEdgesFrom(s, ks[..|ks| - 1]).state, ks[|ks| - 1]);
    }
  }

  lemma {:induction false} TopologyPhaseKeepsBare(s: TopoState, cs: seq<Container>)
    requires Bare(s) && TopologyPhase(s, cs).Done?
    ensures Bare(TopologyPhase(s, cs).state)
    decreases |cs|
  {
    if cs != [] {
      var s' := TopologyPhase(s, cs[..|cs| - 1]).state;
      TopologyPhaseKeepsBare(s, cs[..|cs| - 1]);
      var c := cs[|cs| - 1];
      ReadNodesKeepBare(s', c.topKnoten);
      ReadEdgesKeepBare(ReadNodesFrom(s', c.topKnoten), c.topKante);
    }
  }

  /** An import into an empty topology that finishes leaves every entity
      under its own uuid, every edge between stored nodes and every signal on
      a stored edge that lists it; there are no routes. */
  lemma ImportValid(root: RootObject)
    requires Import(EmptyState, root).Done?
    ensures Valid(Import(EmptyState, root).state)
    ensures Import(EmptyState, root).state.routes == map[]
  {
    var cs := root.lstPlanung.value;
    TopologyPhaseKeepsBare(EmptyState, cs);
    var s1 := TopologyPhase(EmptyState, cs).state;
    FixedSignals.SignalPhaseKeepsValid(s1, cs);
    FixedSignals.SignalPhaseKeepsRoutes(s1, cs);
  }

  class PlanProReader {
    const fileName: string
    const topology: Topology

    constructor (planProFileName: string)
      ensures fileName == FileNames.Normalised(planProFileName)
      ensures fresh(topology)
      ensures topology.State() == EmptyState
    {
      fileName := FileNames.Normalised(planProFileName);
      topology := new Topology("", "");
    }

    /** `root` is the parsed content of the file `fileName`. */
    method ReadTopologyFromPlanProFile(root: RootObject) returns (status: Status)
      modifies topology`nodes, topology`edges, topology`signals
      ensures RunOf(status, topology.State()) == Import(old(topology.State()), root)
    {
      if root.lstPlanung.None? {
        return Raised;
      }
      var cs := root.lstPlanung.value;
      status := ReadTopologies(topology, cs);
      if status != Finished {
        return;
      }
      status := FixedSignals.ReadAllSignals(topology, cs);
    }
  }
}
