/**
 * The geo-chain walk: the GEO_Kanten of one TOP_Kante are an unordered set of
 * segments; walking from node_a's GEO_Knoten, each step takes the first
 * segment that touches the current GEO_Knoten but not the previous one, until
 * node_b's GEO_Knoten is reached. The walk of schema 1.10 collects the
 * GEO_Knoten passed on the way; the walk of schema 1.9 also splices in the
 * points of an optional geo converter.
 *
 * The source loops have no bound: on a cyclic segment set that misses
 * node_b's GEO_Knoten they never end. The model gives the walk 2 * |segments|
 * steps of fuel (see Fuel); running out of fuel stands for that case.
 */
module GeoChain {
  import opened Wrappers
  import opened PlanProRecords
  import opened Yaramo
  import Utils
  import NodeReader

  predicate Touches(g: GeoKante, u: string)
  {
    u == g.knotenA || u == g.knotenB
  }

  /** `_get_other_uuid`: the end of `g` that is not `u` (knotenA unless u is knotenA). */
  function Other(u: string, g: GeoKante): string
  {
    if g.knotenA == u then g.knotenB else g.knotenA
  }

  /** The first segment touching `u` (the search for first_edge). */
  function FirstTouching(segs: seq<GeoKante>, u: string): (r: Option<GeoKante>)
    ensures r.None? <==> forall g :: g in segs ==> !Touches(g, u)
    ensures r.Some? ==> r.value in segs && Touches(r.value, u)
  {
    if segs == [] then None
    else if Touches(segs[0], u) then Some(segs[0])
    else
      assert forall g :: g in segs ==> g == segs[0] || g in segs[1..];
      FirstTouching(segs[1..], u)
  }

  predicate Continues(g: GeoKante, prev: string, prev2: string)
  {
    Touches(g, prev) && !Touches(g, prev2)
  }

  /** `_get_next_edge`: the first segment that touches `prev` and not `prev2`
      (its contract is `NextSegmentFirst`). */
  function NextSegment(segs: seq<GeoKante>, prev: string, prev2: string): Option<GeoKante>
  {
    if segs == [] then None
    else if Continues(segs[0], prev, prev2) then Some(segs[0])
    else NextSegment(segs[1..], prev, prev2)
  }

  /** first_edge is None exactly when no segment touches `u`; otherwise it is
      the first segment of the list that touches `u`. */
  lemma {:induction false} FirstTouchingFirst(segs: seq<GeoKante>, u: string)
    ensures FirstTouching(segs, u).Some? ==>
      exists i :: (0 <= i < |segs| && segs[i] == FirstTouching(segs, u).value && Touches(segs[i], u)
        && forall j :: 0 <= j < i ==> !Touches(segs[j], u))
  {
    if segs != [] && !Touches(segs[0], u) {
      assert FirstTouching(segs, u) == FirstTouching(segs[1..], u);
      FirstTouchingFirst(segs[1..], u);
      var r := FirstTouching(segs[1..], u);
      if r.Some? {
        var i :| 0 <= i < |segs[1..]| && segs[1..][i] == r.value && Touches(segs[1..][i], u)
          && forall j :: 0 <= j < i ==> !Touches(segs[1..][j], u);
        assert forall j :: 1 <= j < i + 1 ==> segs[j] == segs[1..][j - 1];
        assert segs[i + 1] == r.value;
      }
    }
  }

  /** There is no next segment exactly when no segment continues from `prev`;
      otherwise it is the first one that does. */
  lemma {:induction false} NextSegmentFirst(segs: seq<GeoKante>, prev: string, prev2: string)
    ensures NextSegment(segs, prev, prev2).None? <==> forall g :: g in segs ==> !Continues(g, prev, prev2)
    ensures NextSegment(segs, prev, prev2).Some? ==>
      exists i :: (0 <= i < |segs| && segs[i] == NextSegment(segs, prev, prev2).value && Continues(segs[i], prev, prev2)
        && forall j :: 0 <= j < i ==> !Continues(segs[j], prev, prev2))
  {
    if segs != [] && !Continues(segs[0], prev, prev2) {
      assert forall g :: g in segs ==> g == segs[0] || g in segs[1..];
      NextSegmentFirst(segs[1..], prev, prev2);
      var r := NextSegment(segs[1..], prev, prev2);
      if r.Some? {
        var i :| 0 <= i < |segs[1..]| && segs[1..][i] == r.value && Continues(segs[1..][i], prev, prev2)
          && forall j :: 0 <= j < i ==> !Continues(segs[1..][j], prev, prev2);
        assert forall j :: 1 <= j < i + 1 ==> segs[j] == segs[1..][j - 1];
        assert segs[i + 1] == r.value;
      }
    }
  }

  /** How a walk ends: node_b's GEO_Knoten reached, with the GEO_Knoten passed
      in between; no next segment after `at` (a broken chain); or out of fuel. */
  datatype WalkOutcome = Reached(interior: seq<string>) | Broken(at: string) | OutOfFuel

  /** The outcome of a walk that first passed the GEO_Knoten `vs`. */
  function Prepend(vs: seq<string>, w: WalkOutcome): WalkOutcome
  {
    match w
    case Reached(rest) => Reached(vs + rest)
    case other => other
  }

  /** The walk from `prev`, having come from `prev2`, towards `target` (the
      uuid of node_b's geo node; when it has none, no GEO_Knoten matches). */
  function WalkFrom(segs: seq<GeoKante>, prev2: string, prev: string, target: Option<string>, fuel: nat): WalkOutcome
    decreases fuel
  {
    if Some(prev) == target then Reached([])
    else if fuel == 0 then OutOfFuel
    else
      match NextSegment(segs, prev, prev2)
      case None => Broken(prev)
      case Some(g) => Prepend([prev], WalkFrom(segs, prev, Other(prev, g), target, fuel - 1))
  }

  /** The fuel of a walk. The state of the source loop is the pair (previous,
      current) of GEO_Knoten, which after the first step always names the two
      ends of a segment in one direction; there are at most 2 * |segs| such
      pairs, so a walk still running after that many steps repeats a state and
      the source loop never ends. */
  function Fuel(segs: seq<GeoKante>): nat
  {
    2 * |segs|
  }

  /** The walk of one TOP_Kante from GEO_Knoten `a` to GEO_Knoten `b`. The
      source fails when no segment touches `a`. */
  function ChainWalk(segs: seq<GeoKante>, a: string, b: Option<string>): WalkOutcome
    requires FirstTouching(segs, a).Some?
  {
    WalkFrom(segs, a, Other(a, FirstTouching(segs, a).value), b, Fuel(segs))
  }

  predicate Joins(g: GeoKante, u: string, v: string)
  {
    (g.knotenA == u && g.knotenB == v) || (g.knotenA == v && g.knotenB == u)
  }

  /** No GEO_Knoten occurs twice. */
  ghost predicate Distinct(path: seq<string>)
    decreases |path|
  {
    path == [] || (path[0] !in path[1..] && Distinct(path[1..]))
  }

  lemma {:induction false} DistinctAt(path: seq<string>, a: int, b: int)
    requires Distinct(path) && 0 <= a < b < |path|
    ensures path[a] != path[b]
    decreases |path|
  {
    if a == 0 {
      assert path[b] == path[1..][b - 1];
    } else {
      DistinctAt(path[1..], a - 1, b - 1);
    }
  }

  lemma {:induction false} DistinctByIndex(s: seq<string>)
    requires forall i, j :: 0 <= i < j < |s| ==> s[i] != s[j]
    ensures Distinct(s)
    decreases |s|
  {
    if s != [] {
      assert forall k :: 0 <= k < |s[1..]| ==> s[1..][k] == s[k + 1];
      DistinctByIndex(s[1..]);
    }
  }

  lemma DistinctSlice(path: seq<string>, lo: int, hi: int)
    requires Distinct(path) && 0 <= lo <= hi <= |path|
    ensures Distinct(path[lo..hi])
  {
    forall i, j | 0 <= i < j < hi - lo ensures path[lo..hi][i] != path[lo..hi][j] {
      DistinctAt(path, lo + i, lo + j);
    }
    DistinctByIndex(path[lo..hi]);
  }

  /** `g` joins two neighbours of `path`. */
  ghost predicate OnChain(g: GeoKante, path: seq<string>)
  {
    exists i :: 0 <= i < |path| - 1 && Joins(g, path[i], path[i + 1])
  }

  /** Some segment joins path[i] and path[i + 1]. */
  ghost predicate HopCovered(segs: seq<GeoKante>, path: seq<string>, i: int)
    requires 0 <= i < |path| - 1
  {
    exists g :: g in segs && Joins(g, path[i], path[i + 1])
  }

  /** `segs` is a simple chain along the GEO_Knoten `path`: the path has no
      repeated GEO_Knoten, every segment joins two neighbours of the path,
      every pair of neighbours is joined, and there is one segment per hop. */
  ghost predicate SimpleChain(segs: seq<GeoKante>, path: seq<string>)
  {
    && |path| >= 2
    && |segs| == |path| - 1
    && Distinct(path)
    && (forall g :: g in segs ==> OnChain(g, path))
    && (forall i :: 0 <= i < |path| - 1 ==> HopCovered(segs, path, i))
  }

  /** On a simple chain, the segment leaving path[i] away from path[i - 1]
      leads to path[i + 1]. */
  lemma HopForward(segs: seq<GeoKante>, path: seq<string>, i: int, g: GeoKante)
    requires SimpleChain(segs, path) && 0 <= i < |path| - 1
    requires g in segs && Touches(g, path[i]) && (i == 0 || !Touches(g, path[i - 1]))
    ensures Other(path[i], g) == path[i + 1]
  {
    assert OnChain(g, path);
    var j :| 0 <= j < |path| - 1 && Joins(g, path[j], path[j + 1]);
    if j < i {
      DistinctAt(path, j, i);
      if j + 1 < i { DistinctAt(path, j + 1, i); }
    } else if j > i {
      DistinctAt(path, i, j);
      DistinctAt(path, i, j + 1);
    }
    DistinctAt(path, i, i + 1);
  }

  /** On a simple chain, a segment leaves path[i] away from path[i - 1]. */
  lemma HopExists(segs: seq<GeoKante>, path: seq<string>, i: int)
    requires SimpleChain(segs, path) && 1 <= i < |path| - 1
    ensures NextSegment(segs, path[i], path[i - 1]).Some?
  {
    assert HopCovered(segs, path, i);
    var g0 :| g0 in segs && Joins(g0, path[i], path[i + 1]);
    DistinctAt(path, i - 1, i);
    DistinctAt(path, i - 1, i + 1);
    assert Continues(g0, path[i], path[i - 1]);
    NextSegmentFirst(segs, path[i], path[i - 1]);
  }

  /** One step of the walk: leaving `prev` by `g` and then reaching the
      target with `rest` passed. */
  lemma WalkStep(segs: seq<GeoKante>, prev2: string, prev: string, g: GeoKante, target: Option<string>, fuel: nat, rest: seq<string>)
    requires Some(prev) != target && fuel > 0 && NextSegment(segs, prev, prev2) == Some(g)
    requires WalkFrom(segs, prev, Other(prev, g), target, fuel - 1) == Reached(rest)
    ensures WalkFrom(segs, prev2, prev, target, fuel) == Reached([prev] + rest)
  {
  }

  /** From path[i] on, every step of the walk leaves the current GEO_Knoten
      for the next one of `path`, and none of them is the last. */
  ghost predicate StepsAlong(segs: seq<GeoKante>, path: seq<string>, i: nat)
    requires 1 <= i < |path|
    decreases |path| - i
  {
    i == |path| - 1 ||
    (&& path[i] != path[|path| - 1]
     && NextSegment(segs, path[i], path[i - 1]).Some?
     && Other(path[i], NextSegment(segs, path[i], path[i - 1]).value) == path[i + 1]
     && StepsAlong(segs, path, i + 1))
  }

  lemma {:induction false} SimpleChainStepsAlong(segs: seq<GeoKante>, path: seq<string>, i: nat)
    requires SimpleChain(segs, path) && 1 <= i < |path|
    ensures StepsAlong(segs, path, i)
    decreases |path| - i
  {
    var last := |path| - 1;
    if i < last {
      DistinctAt(path, i, last);
      HopExists(segs, path, i);
      var g := NextSegment(segs, path[i], path[i - 1]).value;
      NextSegmentFirst(segs, path[i], path[i - 1]);
      assert g in segs && Continues(g, path[i], path[i - 1]);
      HopForward(segs, path, i, g);
      SimpleChainStepsAlong(segs, path, i + 1);
    }
  }

  lemma {:induction false} WalkAlongSteps(segs: seq<GeoKante>, path: seq<string>, i: nat, fuel: nat)
    requires 1 <= i < |path| && fuel >= |path| - 1 - i && StepsAlong(segs, path, i)
    ensures WalkFrom(segs, path[i - 1], path[i], Some(path[|path| - 1]), fuel) == Reached(path[i..|path| - 1])
    decreases |path| - i
  {
    var last := |path| - 1;
    if i == last {
      assert path[i..last] == [];
    } else {
      var g := NextSegment(segs, path[i], path[i - 1]).value;
      WalkAlongSteps(segs, path, i + 1, fuel - 1);
      WalkStep(segs, path[i - 1], path[i], g, Some(path[last]), fuel, path[i + 1..last]);
      assert path[i..last] == [path[i]] + path[i + 1..last];
    }
  }

  /** Walking a simple chain from path[i], coming from path[i - 1], passes
      path[i..last] and reaches the last GEO_Knoten. */
  lemma WalkAlongChain(segs: seq<GeoKante>, path: seq<string>, i: nat, fuel: nat)
    requires SimpleChain(segs, path)
    requires 1 <= i < |path| && fuel >= |path| - 1 - i
    ensures WalkFrom(segs, path[i - 1], path[i], Some(path[|path| - 1]), fuel) == Reached(path[i..|path| - 1])
  {
    SimpleChainStepsAlong(segs, path, i);
    WalkAlongSteps(segs, path, i, fuel);
  }

  /** On a simple chain of N segments the walk reaches node_b's GEO_Knoten and
      yields the N-1 interior GEO_Knoten in path order, each once, neither end
      among them; one segment gives no interior point. */
  lemma ChainWalkOnSimpleChain(segs: seq<GeoKante>, path: seq<string>)
    requires SimpleChain(segs, path)
    ensures FirstTouching(segs, path[0]).Some?
    ensures ChainWalk(segs, path[0], Some(path[|path| - 1])) == Reached(path[1..|path| - 1])
    ensures |path[1..|path| - 1]| == |segs| - 1
    ensures path[0] !in path[1..|path| - 1] && path[|path| - 1] !in path[1..|path| - 1]
    ensures Distinct(path[1..|path| - 1])
  {
    assert HopCovered(segs, path, 0);
    var g := FirstTouching(segs, path[0]).value;
    HopForward(segs, path, 0, g);
    DistinctSlice(path, 1, |path| - 1);
    var inner := path[1..|path| - 1];
    assert path[0] !in inner by {
      forall k | 0 <= k < |inner| ensures inner[k] != path[0] { DistinctAt(path, 0, k + 1); }
    }
    assert path[|path| - 1] !in inner by {
      forall k | 0 <= k < |inner| ensures inner[k] != path[|path| - 1] { DistinctAt(path, k + 1, |path| - 1); }
    }
    WalkAlongChain(segs, path, 1, Fuel(segs));
  }

  /** The walk does not depend on the order of the GEO_Kanten of a simple chain. */
  lemma ChainWalkOrderIndependent(segs: seq<GeoKante>, segs': seq<GeoKante>, path: seq<string>)
    requires SimpleChain(segs, path) && multiset(segs') == multiset(segs)
    ensures SimpleChain(segs', path)
    ensures FirstTouching(segs, path[0]).Some? && FirstTouching(segs', path[0]).Some?
    ensures ChainWalk(segs', path[0], Some(path[|path| - 1])) == ChainWalk(segs, path[0], Some(path[|path| - 1]))
  {
    assert forall g :: g in segs' <==> g in segs by {
      forall g ensures g in segs' <==> g in segs {
        assert g in segs' <==> g in multiset(segs');
        assert g in segs <==> g in multiset(segs);
      }
    }
    assert |segs'| == |multiset(segs')| == |multiset(segs)| == |segs|;
    forall i | 0 <= i < |path| - 1 ensures HopCovered(segs', path, i) {
      assert HopCovered(segs, path, i);
    }
    ChainWalkOnSimpleChain(segs, path);
    ChainWalkOnSimpleChain(segs', path);
  }

  /** The uuid of a node's geo node; None for a node without one. */
  function GeoUuid(n: Node): Option<string>
  {
    if n.geoNode.Some? then n.geoNode.value.uuid else None
  }

  /** The walk of the TOP_Kante can start, in either schema version: both end
      nodes are in the topology (else KeyError), node_a's geo node has a uuid that a GEO_Kante of the
      TOP_Kante touches, and node_b has a geo node (else AttributeError). */
  predicate Walkable(s: TopoState, c: Container, k: TopKante)
  {
    && k.knotenA in s.nodes && k.knotenB in s.nodes
    && GeoUuid(s.nodes[k.knotenA]).Some?
    && FirstTouching(Utils.GeoEdgesByTopEdgeUuid(c.geoKante, k.uuid), GeoUuid(s.nodes[k.knotenA]).value).Some?
    && s.nodes[k.knotenB].geoNode.Some?
  }

  /** The edge read from a TOP_Kante whose walk passed `geoNodes`. */
  function NewEdge(k: TopKante, geoNodes: seq<GeoNode>): Edge
  {
    Edge(k.uuid, k.knotenA, k.knotenB, k.laenge, geoNodes, [])
  }

  /** The DbrefGeoNode the walk of schema 1.10 records for a GEO_Knoten passed:
      its uuid and the (GK_X, GK_Y) of its first GEO_Punkt, if any. */
  function InteriorGeoNode(points: seq<GeoPunkt>, u: string): GeoNode
  {
    var xy := NodeReader.CoordinatesOfGeoNode(points, u);
    GeoNode(Some(u), xy.0, xy.1, None, None)
  }

  /** The geo nodes the walk of schema 1.10 records, one per GEO_Knoten
      passed and in the order passed: each carries that GEO_Knoten's uuid and,
      when some GEO_Punkt has it, the GK_X and GK_Y of the first such point;
      the data source and coordinate system stay unset. */
  function InteriorGeoNodes(points: seq<GeoPunkt>, us: seq<string>): (r: seq<GeoNode>)
    ensures |r| == |us|
    ensures forall i :: 0 <= i < |us| ==> r[i].uuid == Some(us[i]) && r[i].dataSource.None? && r[i].crs.None?
    ensures forall i :: 0 <= i < |us| ==>
      (r[i].x.Some? <==> Utils.GeoPointByGeoNodeUuid(points, us[i]).Some?)
      && (r[i].y.Some? <==> Utils.GeoPointByGeoNodeUuid(points, us[i]).Some?)
    ensures forall i :: 0 <= i < |us| && Utils.GeoPointByGeoNodeUuid(points, us[i]).Some? ==>
      r[i].x == Some(Utils.GeoPointByGeoNodeUuid(points, us[i]).value.gkX)
      && r[i].y == Some(Utils.GeoPointByGeoNodeUuid(points, us[i]).value.gkY)
  {
    seq(|us|, i requires 0 <= i < |us| => InteriorGeoNode(points, us[i]))
  }

  /** The DbrefGeoNode the walk of schema 1.9 records for a GEO_Knoten passed,
      built from the x and y of Utils.get_coordinates_of_geo_node (the corrected
      reading of reader19.py:92, see Reader19). */
  function InteriorGeoNode19(points: seq<GeoPunkt>, u: string): GeoNode
  {
    var c := Utils.CoordinatesOfGeoNode(points, u);
    GeoNode(Some(u), c.x, c.y, None, None)
  }

  /** Both coordinate lookups find the same x and y, so both schema versions
      record the same geo node for a GEO_Knoten passed. */
  lemma InteriorGeoNodesAgree(points: seq<GeoPunkt>, u: string)
    ensures InteriorGeoNode19(points, u) == InteriorGeoNode(points, u)
    ensures InteriorGeoNode(points, u).uuid == Some(u)
    ensures InteriorGeoNode(points, u).x.Some? <==> Utils.GeoPointByGeoNodeUuid(points, u).Some?
  {
  }

  /** How the walk of schema 1.9 ends: with the list of geo nodes, with an
      exception (a broken chain reaches `_get_other_uuid` with None; converter
      output with equally distant ends raises ValueError), or never. */
  datatype Chain19 = Built(geoNodes: seq<GeoNode>) | Failed | Endless

  /** A walk outcome with `prefix` put in front of the geo nodes it builds. */
  function Extend(prefix: seq<GeoNode>, w: Chain19): Chain19
  {
    match w
    case Built(rest) => Built(prefix + rest)
    case other => other
  }

  lemma ExtendTwice(us: seq<GeoNode>, vs: seq<GeoNode>, w: Chain19)
    ensures Extend(us, Extend(vs, w)) == Extend(us + vs, w)
  {
    if w.Built? {
      assert us + (vs + w.geoNodes) == (us + vs) + w.geoNodes;
    }
  }

  /** The loop of reader19.py: record the GEO_Knoten passed, then the oriented
      converter points of the next segment, then step over that segment. */
  function Walk19From(
    points: seq<GeoPunkt>, segs: seq<GeoKante>, prev2: string, prev: string, target: Option<string>,
    geo: Utils.Geometry, fuel: nat): Chain19
    decreases fuel
  {
    if Some(prev) == target then Built([])
    else if fuel == 0 then Endless
    else
      match NextSegment(segs, prev, prev2)
      case None => Failed
      case Some(g) =>
        match Utils.IntermediateGeoNodes(points, g, prev, geo)
        case SameDistance => Failed
        case Oriented(mid) =>
          Extend([InteriorGeoNode19(points, prev)] + mid,
                 Walk19From(points, segs, prev, Other(prev, g), target, geo, fuel - 1))
  }

  /** The chain of one TOP_Kante in schema 1.9: the oriented converter points
      of the first segment, then the walk. */
  function Chain19Walk(
    points: seq<GeoPunkt>, segs: seq<GeoKante>, a: string, b: Option<string>,
    geo: Utils.Geometry): Chain19
    requires FirstTouching(segs, a).Some?
  {
    var first := FirstTouching(segs, a).value;
    match Utils.IntermediateGeoNodes(points, first, a, geo)
    case SameDistance => Failed
    case Oriented(head) => Extend(head, Walk19From(points, segs, a, Other(a, first), b, geo, Fuel(segs)))
  }

  /** What the walk of schema 1.10 becomes in schema 1.9 without a converter:
      the geo nodes of the GEO_Knoten passed; a broken chain raises. */
  function AsChain19(points: seq<GeoPunkt>, w: WalkOutcome): Chain19
  {
    match w
    case Reached(us) => Built(InteriorGeoNodes(points, us))
    case Broken(_) => Failed
    case OutOfFuel => Endless
  }

  /** Without a converter the walk of schema 1.9 passes the same GEO_Knoten as
      the walk of schema 1.10, and raises exactly where that one stops at a
      broken chain. */
  lemma {:induction false} Walk19WithoutConverter(
    points: seq<GeoPunkt>, segs: seq<GeoKante>, prev2: string, prev: string, target: Option<string>,
    geo: Utils.Geometry, fuel: nat)
    requires geo.converter.None?
    ensures Walk19From(points, segs, prev2, prev, target, geo, fuel)
         == AsChain19(points, WalkFrom(segs, prev2, prev, target, fuel))
    decreases fuel
  {
    if Some(prev) != target && fuel > 0 && NextSegment(segs, prev, prev2).Some? {
      var g := NextSegment(segs, prev, prev2).value;
      Walk19WithoutConverter(points, segs, prev, Other(prev, g), target, geo, fuel - 1);
      AsChain19Prepend(points, prev, WalkFrom(segs, prev, Other(prev, g), target, fuel - 1));
    }
  }

  /** One step of the walk without converter points, on outcomes. */
  lemma AsChain19Prepend(points: seq<GeoPunkt>, u: string, w: WalkOutcome)
    ensures AsChain19(points, Prepend([u], w)) == Extend([InteriorGeoNode19(points, u)] + [], AsChain19(points, w))
  {
    if w.Reached? {
      InteriorGeoNodesAgree(points, u);
      InteriorGeoNodesCons(points, [u] + w.interior);
      assert ([u] + w.interior)[1..] == w.interior;
      assert [InteriorGeoNode19(points, u)] + [] == [InteriorGeoNode19(points, u)];
    }
  }

  /** The chain of schema 1.9 along the GEO_Knoten `us` passed: the converter
      points `mids[0]` of the first segment, then each GEO_Knoten passed
      followed by the converter points of the segment leaving it. */
  function Splice19(points: seq<GeoPunkt>, us: seq<string>, mids: seq<seq<GeoNode>>): seq<GeoNode>
    requires |mids| == |us| + 1
    decreases |us|
  {
    if us == [] then mids[0]
    else mids[0] + [InteriorGeoNode19(points, us[0])] + Splice19(points, us[1..], mids[1..])
  }

  /** With no converter points at all, the spliced chain is exactly the geo
      nodes schema 1.10 records for the same GEO_Knoten. */
  lemma {:induction false} SpliceWithoutPoints(points: seq<GeoPunkt>, us: seq<string>, mids: seq<seq<GeoNode>>)
    requires |mids| == |us| + 1 && forall i :: 0 <= i < |mids| ==> mids[i] == []
    ensures Splice19(points, us, mids) == InteriorGeoNodes(points, us)
    decreases |us|
  {
    if us != [] {
      assert forall i :: 0 <= i < |mids[1..]| ==> mids[1..][i] == mids[i + 1];
      SpliceWithoutPoints(points, us[1..], mids[1..]);
      InteriorGeoNodesAgree(points, us[0]);
      InteriorGeoNodesCons(points, us);
    }
  }

  lemma InteriorGeoNodesCons(points: seq<GeoPunkt>, us: seq<string>)
    requires us != []
    ensures InteriorGeoNodes(points, us) == [InteriorGeoNode(points, us[0])] + InteriorGeoNodes(points, us[1..])
  {
    var l := InteriorGeoNodes(points, us);
    var r := [InteriorGeoNode(points, us[0])] + InteriorGeoNodes(points, us[1..]);
    assert forall i :: 0 <= i < |us| ==> l[i] == InteriorGeoNode(points, us[i]);
    assert forall i :: 1 <= i < |us| ==> r[i] == InteriorGeoNodes(points, us[1..])[i - 1] == InteriorGeoNode(points, us[i]);
  }

  lemma {:induction false} SpliceHead(points: seq<GeoPunkt>, us: seq<string>, m: seq<GeoNode>, ms: seq<seq<GeoNode>>)
    requires |ms| == |us|
    ensures Splice19(points, us, [m] + ms) == m + Splice19(points, us, [[]] + ms)
  {
    if us == [] {
      assert m + [] == m;
    } else {
      assert ([m] + ms)[1..] == ms && ([[]] + ms)[1..] == ms;
    }
  }

  /** The oriented converter points of the segments leaving the GEO_Knoten
      `path[1]`, ..., `path[|path| - 2]`, each found by `_get_next_edge` from
      the GEO_Knoten before it; None when one is missing or has equally
      distant ends. */
  function StepMids(points: seq<GeoPunkt>, segs: seq<GeoKante>, path: seq<string>, geo: Utils.Geometry)
    : (r: Option<seq<seq<GeoNode>>>)
    ensures r.Some? ==> |r.value| == if |path| < 2 then 0 else |path| - 2
    decreases |path|
  {
    if |path| < 3 then Some([])
    else
      match NextSegment(segs, path[1], path[0])
      case None => None
      case Some(g) =>
        match Utils.IntermediateGeoNodes(points, g, path[1], geo)
        case SameDistance => None
        case Oriented(m) =>
          match StepMids(points, segs, path[1..], geo)
          case None => None
          case Some(ms) => Some([m] + ms)
  }

  /** The oriented converter points of every segment of `path`: first_edge
      leaving `path[0]`, then the segments `StepMids` finds. */
  function PathMids(points: seq<GeoPunkt>, segs: seq<GeoKante>, path: seq<string>, geo: Utils.Geometry)
    : (r: Option<seq<seq<GeoNode>>>)
    requires |path| >= 2
    ensures r.Some? ==> |r.value| == |path| - 1
  {
    match FirstTouching(segs, path[0])
    case None => None
    case Some(g) =>
      match Utils.IntermediateGeoNodes(points, g, path[0], geo)
      case SameDistance => None
      case Oriented(m) =>
        match StepMids(points, segs, path, geo)
        case None => None
        case Some(ms) => Some([m] + ms)
  }

  /** A walk that reaches its target has one. */
  lemma {:induction false} ReachedHasTarget(segs: seq<GeoKante>, prev2: string, prev: string, target: Option<string>, fuel: nat)
    ensures WalkFrom(segs, prev2, prev, target, fuel).Reached? ==> target.Some?
    decreases fuel
  {
    if Some(prev) != target && fuel > 0 && NextSegment(segs, prev, prev2).Some? {
      var g := NextSegment(segs, prev, prev2).value;
      ReachedHasTarget(segs, prev, Other(prev, g), target, fuel - 1);
    }
  }

  /** A walk of schema 1.10 that stops at a broken chain makes the loop of
      schema 1.9 raise; one out of fuel makes it raise or never end. */
  lemma {:induction false} Walk19Stops(
    points: seq<GeoPunkt>, segs: seq<GeoKante>, prev2: string, prev: string, target: Option<string>,
    geo: Utils.Geometry, fuel: nat)
    ensures WalkFrom(segs, prev2, prev, target, fuel).Broken? ==> Walk19From(points, segs, prev2, prev, target, geo, fuel) == Failed
    ensures WalkFrom(segs, prev2, prev, target, fuel).OutOfFuel? ==>
      Walk19From(points, segs, prev2, prev, target, geo, fuel).Failed? || Walk19From(points, segs, prev2, prev, target, geo, fuel).Endless?
    decreases fuel
  {
    if Some(prev) != target && fuel > 0 && NextSegment(segs, prev, prev2).Some? {
      var g := NextSegment(segs, prev, prev2).value;
      Walk19Stops(points, segs, prev, Other(prev, g), target, geo, fuel - 1);
    }
  }

  /** With any converter, when the walk of schema 1.10 reaches the target
      passing the GEO_Knoten `us`, the loop of schema 1.9 splices the converter
      points of each segment left around them, or raises exactly when one of
      those segments has equally distant ends. */
  lemma {:induction false} Walk19Reached(
    points: seq<GeoPunkt>, segs: seq<GeoKante>, prev2: string, prev: string, target: Option<string>,
    geo: Utils.Geometry, fuel: nat, us: seq<string>)
    requires WalkFrom(segs, prev2, prev, target, fuel) == Reached(us) && target.Some?
    ensures StepMids(points, segs, [prev2] + us + [target.value], geo).None? ==>
      Walk19From(points, segs, prev2, prev, target, geo, fuel) == Failed
    ensures StepMids(points, segs, [prev2] + us + [target.value], geo).Some? ==>
      Walk19From(points, segs, prev2, prev, target, geo, fuel)
      == Built(Splice19(points, us, [[]] + StepMids(points, segs, [prev2] + us + [target.value], geo).value))
    decreases fuel
  {
    if Some(prev) == target {
      assert Splice19(points, [], [[]]) == [];
    } else {
      var g := NextSegment(segs, prev, prev2).value;
      var next := Other(prev, g);
      var rest := WalkFrom(segs, prev, next, target, fuel - 1).interior;
      assert us == [prev] + rest;
      Walk19Reached(points, segs, prev, next, target, geo, fuel - 1, rest);
      var path := [prev2] + us + [target.value];
      assert path[0] == prev2 && path[1] == prev && path[1..] == [prev] + rest + [target.value];
      var sm := StepMids(points, segs, path[1..], geo);
      if StepMids(points, segs, path, geo).Some? {
        var mid := Utils.IntermediateGeoNodes(points, g, prev, geo).nodes;
        SpliceStep(points, prev, rest, mid, sm.value);
      }
    }
  }

  /** One GEO_Knoten passed: its geo node and the converter points of the
      segment leaving it, in front of the spliced rest. */
  lemma SpliceStep(points: seq<GeoPunkt>, u: string, rest: seq<string>, mid: seq<GeoNode>, ms: seq<seq<GeoNode>>)
    requires |ms| == |rest|
    ensures Extend([InteriorGeoNode19(points, u)] + mid, Built(Splice19(points, rest, [[]] + ms)))
         == Built(Splice19(points, [u] + rest, [[]] + ([mid] + ms)))
  {
    SpliceHead(points, rest, mid, ms);
    assert ([u] + rest)[1..] == rest;
    assert ([[]] + ([mid] + ms))[1..] == [mid] + ms;
  }

  /** Per TOP_Kante, with any converter: when the walk of schema 1.10 reaches
      node_b's GEO_Knoten, schema 1.9 builds the converter points of first_edge,
      then each GEO_Knoten passed followed by the converter points of the
      segment leaving it, or raises exactly when one of those segments has
      equally distant ends; a broken walk raises; a walk out of fuel raises or
      never ends. */
  lemma Chain19AlongWalk(points: seq<GeoPunkt>, segs: seq<GeoKante>, a: string, b: Option<string>, geo: Utils.Geometry)
    requires FirstTouching(segs, a).Some?
    ensures ChainWalk(segs, a, b).Reached? ==> b.Some?
    ensures (ChainWalk(segs, a, b).Reached? && b.Some?
             && PathMids(points, segs, [a] + ChainWalk(segs, a, b).interior + [b.value], geo).Some?) ==>
      Chain19Walk(points, segs, a, b, geo)
      == Built(Splice19(points, ChainWalk(segs, a, b).interior,
                        PathMids(points, segs, [a] + ChainWalk(segs, a, b).interior + [b.value], geo).value))
    ensures (ChainWalk(segs, a, b).Reached? && b.Some?
             && PathMids(points, segs, [a] + ChainWalk(segs, a, b).interior + [b.value], geo).None?) ==>
      Chain19Walk(points, segs, a, b, geo) == Failed
    ensures ChainWalk(segs, a, b).Broken? ==> Chain19Walk(points, segs, a, b, geo) == Failed
    ensures ChainWalk(segs, a, b).OutOfFuel? ==>
      Chain19Walk(points, segs, a, b, geo).Failed? || Chain19Walk(points, segs, a, b, geo).Endless?
  {
    var first := FirstTouching(segs, a).value;
    ReachedHasTarget(segs, a, Other(a, first), b, Fuel(segs));
    Walk19Stops(points, segs, a, Other(a, first), b, geo, Fuel(segs));
    var w := ChainWalk(segs, a, b);
    if w.Reached? && b.Some? {
      Walk19Reached(points, segs, a, Other(a, first), b, geo, Fuel(segs), w.interior);
      var path := [a] + w.interior + [b.value];
      if PathMids(points, segs, path, geo).Some? {
        var head := Utils.IntermediateGeoNodes(points, first, a, geo).nodes;
        SpliceHead(points, w.interior, head, StepMids(points, segs, path, geo).value);
      }
    }
  }

  /** Per TOP_Kante: schema 1.9 without a converter builds exactly the interior
      geo nodes schema 1.10 builds, and raises where schema 1.10 skips the edge. */
  lemma Chain19WithoutConverter(points: seq<GeoPunkt>, segs: seq<GeoKante>, a: string, b: Option<string>, geo: Utils.Geometry)
    requires FirstTouching(segs, a).Some? && geo.converter.None?
    ensures Chain19Walk(points, segs, a, b, geo) == AsChain19(points, ChainWalk(segs, a, b))
  {
    var first := FirstTouching(segs, a).value;
    Walk19WithoutConverter(points, segs, a, Other(a, first), b, geo, Fuel(segs));
    match Walk19From(points, segs, a, Other(a, first), b, geo, Fuel(segs))
    case Built(rest) => assert [] + rest == rest;
    case Failed =>
    case Endless =>
  }
}
