/**
 * NodeReader of schema 1.10: reads TOP_Knoten into nodes and names the nodes
 * that switch components sit on.
 */
module NodeReader {
  import opened Wrappers
  import opened PlanProRecords
  import opened Yaramo
  import Utils

  /** (GK_X, GK_Y) of the first GEO_Punkt of the geo node, or (None, None).
      The search is the one of Utils.GeoPointByGeoNodeUuid, repeated in the
      node reader. */
  function CoordinatesOfGeoNode(points: seq<GeoPunkt>, uuid: string): (r: (Option<real>, Option<real>))
    ensures r.0.None? <==> Utils.GeoPointByGeoNodeUuid(points, uuid).None?
    ensures r.1.None? <==> Utils.GeoPointByGeoNodeUuid(points, uuid).None?
    ensures Utils.GeoPointByGeoNodeUuid(points, uuid).Some? ==>
      r == (Some(Utils.GeoPointByGeoNodeUuid(points, uuid).value.gkX),
            Some(Utils.GeoPointByGeoNodeUuid(points, uuid).value.gkY))
  {
    match Utils.GeoPointByGeoNodeUuid(points, uuid)
    case None => (None, None)
    case Some(p) => (Some(p.gkX), Some(p.gkY))
  }

  /** The node read from a TOP_Knoten whose geo node has coordinates. */
  function NewNode(k: TopKnoten, x: real, y: real): Node
  {
    Node(k.uuid, Some(GeoNode(Some(k.idGeoKnoten), Some(x), Some(y), None, None)), None, None, None, None)
  }

  /** One iteration of read_nodes: the TOP_Knoten is skipped when its geo node
      has no coordinates. */
  function ReadNode(s: TopoState, points: seq<GeoPunkt>, k: TopKnoten): TopoState
  {
    var xy := CoordinatesOfGeoNode(points, k.idGeoKnoten);
    if xy.0.None? || xy.1.None? then s
    else s.(nodes := s.nodes[k.uuid := NewNode(k, xy.0.value, xy.1.value)])
  }

  /** read_nodes over the records `ks`, in order. */
  function ReadNodesFrom(s: TopoState, points: seq<GeoPunkt>, ks: seq<TopKnoten>): TopoState
    decreases |ks|
  {
    if ks == [] then s else ReadNode(ReadNodesFrom(s, points, ks[..|ks| - 1]), points, ks[|ks| - 1])
  }

  /** Whether the TOP_Knoten's geo node has a GEO_Punkt. */
  predicate Located(points: seq<GeoPunkt>, k: TopKnoten)
  {
    Utils.GeoPointByGeoNodeUuid(points, k.idGeoKnoten).Some?
  }

  method ReadNodes(t: Topology, c: Container)
    modifies t`nodes
    ensures t.State() == ReadNodesFrom(old(t.State()), c.geoPunkt, c.topKnoten)
  {
    ghost var s0 := t.State();
    var i := 0;
    while i < |c.topKnoten|
      invariant 0 <= i <= |c.topKnoten|
      invariant t.State() == ReadNodesFrom(s0, c.geoPunkt, c.topKnoten[..i])
    {
      var k := c.topKnoten[i];
      assert c.topKnoten[..i + 1][..i] == c.topKnoten[..i];
      var xy := CoordinatesOfGeoNode(c.geoPunkt, k.idGeoKnoten);
      if xy.0.Some? && xy.1.Some? {
        t.AddNode(NewNode(k, xy.0.value, xy.1.value));
      }
      i := i + 1;
    }
    assert c.topKnoten[..i] == c.topKnoten;
  }

  /** One TOP_Knoten: a located one is stored under its uuid with its geo node
      uuid, an unlocated one changes nothing, and no other node changes. */
  lemma ReadNodeEffect(s: TopoState, points: seq<GeoPunkt>, k: TopKnoten)
    ensures var r := ReadNode(s, points, k);
      && r.edges == s.edges && r.signals == s.signals && r.routes == s.routes
      && (!Located(points, k) ==> r == s)
      && (Located(points, k) ==>
            (&& r.nodes.Keys == s.nodes.Keys + {k.uuid}
             && r.nodes[k.uuid].uuid == k.uuid
             && r.nodes[k.uuid].geoNode.Some? && r.nodes[k.uuid].geoNode.value.uuid == Some(k.idGeoKnoten)))
      && (forall u :: u in s.nodes && u != k.uuid ==> r.nodes[u] == s.nodes[u])
  {
  }

  /** read_nodes adds a node exactly for the located TOP_Knoten and keeps
      every other node and every other map. */
  lemma {:induction false} ReadNodesKeys(s: TopoState, points: seq<GeoPunkt>, ks: seq<TopKnoten>)
    ensures var r := ReadNodesFrom(s, points, ks);
      && r.edges == s.edges && r.signals == s.signals && r.routes == s.routes
      && (forall u :: u in r.nodes <==> u in s.nodes || exists k :: k in ks && k.uuid == u && Located(points, k))
    decreases |ks|
  {
    if ks != [] {
      var init := ks[..|ks| - 1];
      ReadNodesKeys(s, points, init);
      ReadNodeEffect(ReadNodesFrom(s, points, init), points, ks[|ks| - 1]);
      assert forall k :: k in ks <==> k in init || k == ks[|ks| - 1] by {
        assert ks == init + [ks[|ks| - 1]];
      }
    }
  }

  /** Every node after read_nodes is either an unchanged earlier node or was
      read from a located TOP_Knoten: stored under its uuid, with the record's
      geo node uuid. */
  lemma {:induction false} ReadNodesValues(s: TopoState, points: seq<GeoPunkt>, ks: seq<TopKnoten>)
    ensures var r := ReadNodesFrom(s, points, ks);
      forall u :: u in r.nodes ==>
        (u in s.nodes && r.nodes[u] == s.nodes[u])
        || exists k :: k in ks && k.uuid == u && Located(points, k)
             && r.nodes[u].uuid == u
             && r.nodes[u].geoNode.Some? && r.nodes[u].geoNode.value.uuid == Some(k.idGeoKnoten)
    decreases |ks|
  {
    if ks != [] {
      var init := ks[..|ks| - 1];
      ReadNodesValues(s, points, init);
      ReadNodesKeys(s, points, init);
      ReadNodeEffect(ReadNodesFrom(s, points, init), points, ks[|ks| - 1]);
      assert forall k :: k in init ==> k in ks;
      assert ks[|ks| - 1] in ks;
    }
  }

  /** Python's `uuid[-5:]`: the last five characters, or all of a shorter string. */
  function LastFive(s: string): (r: string)
    ensures |r| == if |s| < 5 then |s| else 5
    ensures s == s[..|s| - |r|] + r
  {
    if |s| <= 5 then s else s[|s| - 5..]
  }

  /** The first component whose ID_W_Kr_Gsp_Element is `element`. */
  function ComponentByElementUuid(komponenten: seq<WKrGspKomponente>, element: string): (r: Option<WKrGspKomponente>)
    ensures r.None? <==> forall i :: 0 <= i < |komponenten| ==> komponenten[i].idElement != element
    ensures r.Some? ==> exists i :: (0 <= i < |komponenten| && komponenten[i] == r.value
      && komponenten[i].idElement == element
      && forall j :: 0 <= j < i ==> komponenten[j].idElement != element)
  {
    if komponenten == [] then None
    else if komponenten[0].idElement == element then Some(komponenten[0])
    else
      var r := ComponentByElementUuid(komponenten[1..], element);
      assert r.Some? ==> exists i :: (1 <= i < |komponenten| && komponenten[i] == r.value
        && komponenten[i].idElement == element
        && forall j :: 0 <= j < i ==> komponenten[j].idElement != element) by {
        if r.Some? {
          var i :| 0 <= i < |komponenten[1..]| && komponenten[1..][i] == r.value
            && komponenten[1..][i].idElement == element
            && forall j :: 0 <= j < i ==> komponenten[1..][j].idElement != element;
          assert forall j :: 1 <= j < i + 1 ==> komponenten[j] == komponenten[1..][j - 1];
        }
      }
      r
  }

  /** The TOP node at which one edge reference of a component lies: node_a at
      distance 0.0 (tested first, so also on an edge of length 0), node_b at
      the full edge length; None for a missing edge or an interior distance. */
  function EndNode(edges: map<string, Edge>, p: PunktObjekt): (r: Option<string>)
    ensures r.None? <==>
      p.idTopKante !in edges || (p.abstand != 0.0 && p.abstand != edges[p.idTopKante].length)
    ensures r.Some? && p.abstand == 0.0 ==> r.value == edges[p.idTopKante].nodeA
    ensures r.Some? && p.abstand != 0.0 ==> r.value == edges[p.idTopKante].nodeB
  {
    if p.idTopKante !in edges then None
    else if p.abstand == 0.0 then Some(edges[p.idTopKante].nodeA)
    else if edges[p.idTopKante].length == p.abstand then Some(edges[p.idTopKante].nodeB)
    else None
  }

  /** What get_point_of_component returns: None when the component has no edge
      reference or one of them is not at an edge end, else the node of the
      first reference. The consistency check of nodereader.py:93 compares
      `point.uuid` with itself and never rejects, so later references are not
      compared with the first. */
  function PointOfComponent(edges: map<string, Edge>, refs: seq<PunktObjekt>): Option<string>
  {
    if refs != [] && forall i :: 0 <= i < |refs| ==> EndNode(edges, refs[i]).Some?
    then EndNode(edges, refs[0]) else None
  }

  method GetPointOfComponent(edges: map<string, Edge>, component: WKrGspKomponente) returns (point: Option<string>)
    ensures point == PointOfComponent(edges, component.punkte)
    ensures point.None? <==>
      component.punkte == [] || exists i :: 0 <= i < |component.punkte| && EndNode(edges, component.punkte[i]).None?
  {
    point := None;
    var i := 0;
    while i < |component.punkte|
      invariant 0 <= i <= |component.punkte|
      invariant forall j :: 0 <= j < i ==> EndNode(edges, component.punkte[j]).Some?
      invariant point == if i == 0 then None else EndNode(edges, component.punkte[0])
    {
      var ref := component.punkte[i];
      if ref.idTopKante !in edges {
        return None;
      }
      var topEdge := edges[ref.idTopKante];
      var pointOnTopEdge;
      if ref.abstand == 0.0 {
        pointOnTopEdge := topEdge.nodeA;
      } else if topEdge.length == ref.abstand {
        pointOnTopEdge := topEdge.nodeB;
      } else {
        // a lock object between the edge ends: ignored
        return None;
      }
      if point.None? {
        point := Some(pointOnTopEdge);
      }
      // nodereader.py:93 tests `point.uuid != point.uuid`, which is never true
      i := i + 1;
    }
  }

  /** The first loop of add_point_names reads the element's
      Bezeichnung_Aussenanlage and then looks its component up; it raises when
      either is missing. */
  predicate ElementComplete(komponenten: seq<WKrGspKomponente>, el: WKrGspElement)
  {
    el.bezeichnungAussenanlage.Some? && ComponentByElementUuid(komponenten, el.uuid).Some?
  }

  /** One iteration of the first loop of add_point_names. An element that is
      not complete makes the source raise; AddPointNames requires that every
      element is complete. */
  function NameElement(s: TopoState, komponenten: seq<WKrGspKomponente>, el: WKrGspElement): TopoState
  {
    match ComponentByElementUuid(komponenten, el.uuid)
    case None => s
    case Some(comp) =>
      match PointOfComponent(s.edges, comp.punkte)
      case None => s
      case Some(p) =>
        if p in s.nodes && el.bezeichnungAussenanlage.Some? then
          s.(nodes := s.nodes[p := s.nodes[p].(name := el.bezeichnungAussenanlage)])
        else s
  }

  function NameElementsFrom(s: TopoState, komponenten: seq<WKrGspKomponente>, els: seq<WKrGspElement>): TopoState
    decreases |els|
  {
    if els == [] then s
    else NameElement(NameElementsFrom(s, komponenten, els[..|els| - 1]), komponenten, els[|els| - 1])
  }

  /** The second loop of add_point_names: a node still without a name gets the
      last five characters of its uuid. */
  function DefaultNamed(n: Node): Node
  {
    if n.name.None? then n.(name := Some(LastFive(n.uuid))) else n
  }

  function DefaultNames(nodes: map<string, Node>): map<string, Node>
  {
    map k | k in nodes :: DefaultNamed(nodes[k])
  }

  function AddPointNamesSpec(s: TopoState, c: Container): TopoState
  {
    var named := NameElementsFrom(s, c.komponenten, c.elemente);
    named.(nodes := DefaultNames(named.nodes))
  }

  method AddPointNames(t: Topology, c: Container)
    requires forall el :: el in c.elemente ==> ElementComplete(c.komponenten, el)
    modifies t`nodes
    ensures t.State() == AddPointNamesSpec(old(t.State()), c)
  {
    ghost var s0 := t.State();
    var i := 0;
    while i < |c.elemente|
      invariant 0 <= i <= |c.elemente|
      invariant t.State() == NameElementsFrom(s0, c.komponenten, c.elemente[..i])
    {
      assert c.elemente[..i + 1][..i] == c.elemente[..i];
      NamePointOfElement(t, c.komponenten, c.elemente[i]);
      i := i + 1;
    }
    assert c.elemente[..i] == c.elemente;
    NameRemainingNodes(t);
  }

  /** The body of the first loop of add_point_names. */
  method NamePointOfElement(t: Topology, komponenten: seq<WKrGspKomponente>, el: WKrGspElement)
    requires ElementComplete(komponenten, el)
    modifies t`nodes
    ensures t.State() == NameElement(old(t.State()), komponenten, el)
  {
    var component := ComponentByElementUuid(komponenten, el.uuid);
    var point := GetPointOfComponent(t.edges, component.value);
    if point.Some? && point.value in t.nodes {
      t.SetNodeName(point.value, el.bezeichnungAussenanlage.value);
    }
  }

  /** The second loop of add_point_names, over all nodes of the topology. */
  method NameRemainingNodes(t: Topology)
    modifies t`nodes
    ensures t.State() == old(t.State()).(nodes := DefaultNames(old(t.nodes)))
  {
    ghost var mid := t.State();
    var remaining := t.nodes.Keys;
    while remaining != {}
      invariant remaining <= mid.nodes.Keys && t.nodes.Keys == mid.nodes.Keys
      invariant forall k :: k in mid.nodes ==>
        t.nodes[k] == if k in remaining then mid.nodes[k] else DefaultNamed(mid.nodes[k])
      invariant t.State() == mid.(nodes := t.nodes)
      decreases remaining
    {
      var k :| k in remaining;
      if t.nodes[k].name.None? {
        t.SetNodeName(k, LastFive(t.nodes[k].uuid));
      }
      remaining := remaining - {k};
    }
    assert t.nodes == DefaultNames(mid.nodes);
  }

  /** Naming changes names only: the keys, uuids and geo nodes of all nodes and
      the other maps stay; a node that no element resolves to keeps its name;
      the node the last element resolves to carries that element's name. */
  lemma {:induction false} NameElementsOnlyRenames(s: TopoState, komponenten: seq<WKrGspKomponente>, els: seq<WKrGspElement>)
    ensures var r := NameElementsFrom(s, komponenten, els);
      && r.edges == s.edges && r.signals == s.signals && r.routes == s.routes
      && r.nodes.Keys == s.nodes.Keys
      && (forall k :: k in r.nodes ==> r.nodes[k] == s.nodes[k].(name := r.nodes[k].name))
      && (forall k :: k in r.nodes && r.nodes[k].name != s.nodes[k].name ==>
            exists el :: el in els && el.bezeichnungAussenanlage.Some? && r.nodes[k].name == el.bezeichnungAussenanlage)
    decreases |els|
  {
    if els != [] {
      var init := els[..|els| - 1];
      NameElementsOnlyRenames(s, komponenten, init);
      assert forall el :: el in init ==> el in els;
    }
  }

  lemma NameLastElementWins(s: TopoState, komponenten: seq<WKrGspKomponente>, els: seq<WKrGspElement>, comp: WKrGspKomponente, p: string)
    requires els != [] && ComponentByElementUuid(komponenten, els[|els| - 1].uuid) == Some(comp)
    requires PointOfComponent(s.edges, comp.punkte) == Some(p) && p in s.nodes
    ensures p in NameElementsFrom(s, komponenten, els).nodes
    ensures els[|els| - 1].bezeichnungAussenanlage.Some? ==>
      NameElementsFrom(s, komponenten, els).nodes[p].name == els[|els| - 1].bezeichnungAussenanlage
  {
    NameElementsOnlyRenames(s, komponenten, els[..|els| - 1]);
  }

  /** After add_point_names every node of the whole topology has a name: the
      resolved point name, else the name it had, else the last five characters
      of its uuid. */
  lemma AddPointNamesNamesAll(s: TopoState, c: Container)
    ensures var r := AddPointNamesSpec(s, c);
      && r.nodes.Keys == s.nodes.Keys
      && r.edges == s.edges && r.signals == s.signals && r.routes == s.routes
      && (forall k :: k in r.nodes ==> r.nodes[k].name.Some?)
      && (forall k :: (k in r.nodes && s.nodes[k].name.None?
            && NameElementsFrom(s, c.komponenten, c.elemente).nodes[k].name.None?) ==>
            r.nodes[k].name == Some(LastFive(s.nodes[k].uuid)))
      && (forall k :: k in r.nodes && s.nodes[k].name.Some? ==>
            r.nodes[k].name == NameElementsFrom(s, c.komponenten, c.elemente).nodes[k].name)
      && (forall k :: k in r.nodes && NameElementsFrom(s, c.komponenten, c.elemente).nodes[k].name.Some? ==>
            r.nodes[k].name == NameElementsFrom(s, c.komponenten, c.elemente).nodes[k].name)
  {
    NameElementsOnlyRenames(s, c.komponenten, c.elemente);
  }

  /** read_nodes keeps a bare topology bare: each node is stored under its own
      uuid, and no node disappears from under an edge. */
  lemma ReadNodesKeepBare(s: TopoState, points: seq<GeoPunkt>, ks: seq<TopKnoten>)
    requires Bare(s)
    ensures Bare(ReadNodesFrom(s, points, ks))
  {
    ReadNodesKeys(s, points, ks);
    ReadNodesValues(s, points, ks);
  }

  /** add_point_names keeps a bare topology bare. */
  lemma AddPointNamesKeepsBare(s: TopoState, c: Container)
    requires Bare(s)
    ensures Bare(AddPointNamesSpec(s, c))
  {
    NameElementsOnlyRenames(s, c.komponenten, c.elemente);
    var named := NameElementsFrom(s, c.komponenten, c.elemente);
    assert forall k :: k in named.nodes ==> named.nodes[k].uuid == s.nodes[k].uuid;
  }
}
