/**
 * The target graph model (the yaramo library), reduced to what the importer
 * relies on. Entities are values addressed by uuid; a relation between
 * entities is the uuid of the other entity, resolved through the maps of a
 * `Topology`.
 */
module Yaramo {
  import opened Wrappers

  /** DbrefGeoNode: a position with optional uuid, coordinates and metadata. */
  datatype GeoNode = GeoNode(
    uuid: Option<string>,
    x: Option<real>,
    y: Option<real>,
    dataSource: Option<string>,
    crs: Option<string>)

  /** Node: the three connection slots hold the uuid of a neighbouring node
      (schema 1.10 and the legacy reader) or of the attached edge (schema 1.9). */
  datatype Node = Node(
    uuid: string,
    geoNode: Option<GeoNode>,
    left: Option<string>,
    right: Option<string>,
    head: Option<string>,
    name: Option<string>)

  /** Edge: `signals` lists the uuids of the signals appended to it, in order. */
  datatype Edge = Edge(
    uuid: string,
    nodeA: string,
    nodeB: string,
    length: real,
    intermediateGeoNodes: seq<GeoNode>,
    signals: seq<string>)

  /** The name of a member of yaramo's SignalState enumeration. */
  type SignalState = string

  /** Signal. `supportedStates` and `system` are None where the reader leaves
      them to the defaults of yaramo's constructor. */
  datatype Signal = Signal(
    uuid: string,
    signalFunction: string,
    kind: string,
    name: string,
    edge: string,
    direction: string,
    sideDistance: real,
    distanceEdge: real,
    supportedStates: Option<set<SignalState>>,
    system: Option<string>)

  /** A route's edges: a set (schema 1.9) or a list in record order (schema 1.10). */
  datatype RouteEdges = EdgeSet(set<string>) | EdgeList(seq<string>)

  function EdgeRefs(es: RouteEdges): set<string>
  {
    match es
    case EdgeSet(s) => s
    case EdgeList(l) => set e | e in l
  }

  datatype Route = Route(
    uuid: string,
    startSignal: string,
    endSignal: string,
    maximumSpeed: Option<int>,
    name: string,
    edges: RouteEdges)

  /** The four maps of a topology, as one value. */
  datatype TopoState = TopoState(
    nodes: map<string, Node>,
    edges: map<string, Edge>,
    signals: map<string, Signal>,
    routes: map<string, Route>)

  const EmptyState := TopoState(map[], map[], map[], map[])

  /** Every entity is stored under its own uuid. */
  ghost predicate KeyedByUuid(s: TopoState)
  {
    && (forall k :: k in s.nodes ==> s.nodes[k].uuid == k)
    && (forall k :: k in s.edges ==> s.edges[k].uuid == k)
    && (forall k :: k in s.signals ==> s.signals[k].uuid == k)
    && (forall k :: k in s.routes ==> s.routes[k].uuid == k)
  }

  /** Both end nodes of every edge are nodes of the topology. */
  ghost predicate EdgesClosed(s: TopoState)
  {
    forall e :: e in s.edges ==> s.edges[e].nodeA in s.nodes && s.edges[e].nodeB in s.nodes
  }

  /** Every signal sits on an edge of the topology and is listed by that edge. */
  ghost predicate SignalsClosed(s: TopoState)
  {
    forall g :: g in s.signals ==>
      s.signals[g].edge in s.edges && g in s.edges[s.signals[g].edge].signals
  }

  /** Both end signals and every edge of every route are in the topology. */
  ghost predicate RoutesClosed(s: TopoState)
  {
    forall r :: r in s.routes ==>
      && s.routes[r].startSignal in s.signals
      && s.routes[r].endSignal in s.signals
      && EdgeRefs(s.routes[r].edges) <= s.edges.Keys
  }

  /** The invariants every imported topology satisfies. */
  ghost predicate Valid(s: TopoState)
  {
    KeyedByUuid(s) && EdgesClosed(s) && SignalsClosed(s) && RoutesClosed(s)
  }

  /** The slot the tag `anschluss` names: "Links" the left one, "Rechts" the
      right one, any other tag the head. */
  function Slot(n: Node, anschluss: string): Option<string>
  {
    if anschluss == "Links" then n.left else if anschluss == "Rechts" then n.right else n.head
  }

  /** A topology before any signal is read: keyed by uuid, with closed edges,
      and no signals or routes yet. */
  ghost predicate Bare(s: TopoState)
  {
    KeyedByUuid(s) && EdgesClosed(s) && s.signals == map[] && s.routes == map[]
  }

  /** The connection rule shared by all readers: "Links" fills only the left
      slot, "Rechts" only the right slot, any other tag only the head slot. */
  function Connected(n: Node, anschluss: string, target: string): (r: Node)
    ensures r.uuid == n.uuid && r.geoNode == n.geoNode && r.name == n.name
    ensures Slot(r, anschluss) == Some(target)
    ensures anschluss == "Links" ==> r.left == Some(target) && r.right == n.right && r.head == n.head
    ensures anschluss == "Rechts" ==> r.right == Some(target) && r.left == n.left && r.head == n.head
    ensures anschluss != "Links" && anschluss != "Rechts" ==>
      r.head == Some(target) && r.left == n.left && r.right == n.right
  {
    if anschluss == "Links" then n.(left := Some(target))
    else if anschluss == "Rechts" then n.(right := Some(target))
    else n.(head := Some(target))
  }

  /** The state after connecting node `k` (when present) by the tag `anschluss`. */
  function ConnectNode(s: TopoState, k: string, anschluss: string, target: string): TopoState
  {
    if k in s.nodes then s.(nodes := s.nodes[k := Connected(s.nodes[k], anschluss, target)]) else s
  }

  /** Connecting `a` to `x` by `tagA`, then `b` to `y` by `tagB`, where `a`
      and `b` are nodes and one node connected twice gets one target: both
      slots hold their targets afterwards; every node keeps its uuid, geo node
      and name; each end node is changed only by `Connected`, so its other
      slots keep their values; nodes other than the two are untouched; the
      other maps stay. */
  lemma ConnectPair(s: TopoState, a: string, tagA: string, x: string, b: string, tagB: string, y: string)
    requires a in s.nodes && b in s.nodes && (a == b ==> x == y)
    ensures var r := ConnectNode(ConnectNode(s, a, tagA, x), b, tagB, y);
      && r.edges == s.edges && r.signals == s.signals && r.routes == s.routes
      && r.nodes.Keys == s.nodes.Keys
      && Slot(r.nodes[a], tagA) == Some(x)
      && Slot(r.nodes[b], tagB) == Some(y)
      && (forall u :: u in s.nodes ==>
            && r.nodes[u].uuid == s.nodes[u].uuid
            && r.nodes[u].geoNode == s.nodes[u].geoNode
            && r.nodes[u].name == s.nodes[u].name)
      && (forall u :: u in s.nodes && u != a && u != b ==> r.nodes[u] == s.nodes[u])
      && (a != b ==> r.nodes[a] == Connected(s.nodes[a], tagA, x) && r.nodes[b] == Connected(s.nodes[b], tagB, y))
      && (a == b ==> r.nodes[a] == Connected(Connected(s.nodes[a], tagA, x), tagB, y))
  {
    var m := ConnectNode(s, a, tagA, x);
    var r := ConnectNode(m, b, tagB, y);
    assert m.nodes == s.nodes[a := Connected(s.nodes[a], tagA, x)];
    assert r.nodes == m.nodes[b := Connected(m.nodes[b], tagB, y)];
    if a == b && Slot(m.nodes[a], tagB) != Slot(s.nodes[a], tagB) {
      assert Slot(m.nodes[a], tagA) == Some(x);
    }
  }

  /** Storing the signal `g` on the edge `e` and appending it to that edge's
      list keeps every signal listed by its edge. */
  lemma SignalPlacedKeepsClosed(s: TopoState, r: TopoState, g: string, e: string)
    requires SignalsClosed(s) && e in s.edges
    requires r.signals.Keys == s.signals.Keys + {g} && r.signals[g].edge == e
    requires forall u :: u in s.signals && u != g ==> r.signals[u] == s.signals[u]
    requires r.edges.Keys == s.edges.Keys && r.edges[e] == s.edges[e].(signals := s.edges[e].signals + [g])
    requires forall u :: u in s.edges && u != e ==> r.edges[u] == s.edges[u]
    ensures SignalsClosed(r)
  {
    forall u | u in r.signals
      ensures r.signals[u].edge in r.edges && u in r.edges[r.signals[u].edge].signals
    {
      if u != g {
        var eu := s.signals[u].edge;
        assert u in s.edges[eu].signals;
        if eu == e {
          assert r.edges[e].signals == s.edges[e].signals + [g];
        }
      } else {
        assert r.edges[e].signals[|r.edges[e].signals| - 1] == g;
      }
    }
  }

  /** Topology: the aggregate the importer fills in place. */
  class Topology {
    var name: string
    var createdWith: string
    var nodes: map<string, Node>
    var edges: map<string, Edge>
    var signals: map<string, Signal>
    var routes: map<string, Route>

    function State(): TopoState
      reads this
    {
      TopoState(nodes, edges, signals, routes)
    }

    constructor (name: string, createdWith: string)
      ensures this.name == name && this.createdWith == createdWith
      ensures State() == EmptyState
    {
      this.name := name;
      this.createdWith := createdWith;
      nodes, edges, signals, routes := map[], map[], map[], map[];
    }

    method AddNode(n: Node)
      modifies this`nodes
      ensures State() == old(State()).(nodes := old(nodes)[n.uuid := n])
    {
      nodes := nodes[n.uuid := n];
    }

    method AddEdge(e: Edge)
      modifies this`edges
      ensures State() == old(State()).(edges := old(edges)[e.uuid := e])
    {
      edges := edges[e.uuid := e];
    }

    method AddSignal(g: Signal)
      modifies this`signals
      ensures State() == old(State()).(signals := old(signals)[g.uuid := g])
    {
      signals := signals[g.uuid := g];
    }

    method AddRoute(r: Route)
      modifies this`routes
      ensures State() == old(State()).(routes := old(routes)[r.uuid := r])
    {
      routes := routes[r.uuid := r];
    }

    /** Sets one connection slot of the stored node `k`. */
    method SetConnection(anschluss: string, k: string, target: string)
      requires k in nodes
      modifies this`nodes
      ensures State() == ConnectNode(old(State()), k, anschluss, target)
    {
      nodes := nodes[k := Connected(nodes[k], anschluss, target)];
    }

    /** `node.name = name` on the stored node `k`. */
    method SetNodeName(k: string, name: string)
      requires k in nodes
      modifies this`nodes
      ensures State() == old(State()).(nodes := old(nodes)[k := old(nodes)[k].(name := Some(name))])
    {
      nodes := nodes[k := nodes[k].(name := Some(name))];
    }

    /** `edge.signals.append(signal)` on the stored edge `e`. */
    method AppendSignalToEdge(e: string, g: string)
      requires e in edges
      modifies this`edges
      ensures State() == old(State()).(edges := old(edges)[e := old(edges)[e].(signals := old(edges)[e].signals + [g])])
    {
      edges := edges[e := edges[e].(signals := edges[e].signals + [g])];
    }
  }
}
