/**
 * The shared lookups of the importer: geo points by GEO_Knoten, coordinates,
 * the GEO_Kanten of a TOP_Kante, the container list of a file and the
 * orientation of converter output.
 */
module Utils {
  import opened Wrappers
  import opened PlanProRecords
  import opened Yaramo

  /** The first GEO_Punkt whose ID_GEO_Knoten is present and equal to `uuid`;
      points without ID_GEO_Knoten are skipped. */
  function GeoPointByGeoNodeUuid(points: seq<GeoPunkt>, uuid: string): Option<GeoPunkt>
  {
    if points == [] then None
    else if points[0].idGeoKnoten == Some(uuid) then Some(points[0])
    else GeoPointByGeoNodeUuid(points[1..], uuid)
  }

  /** The result is None exactly when no point has the uuid; otherwise it is
      the first point that has it. */
  lemma {:induction false} GeoPointFirstMatch(points: seq<GeoPunkt>, uuid: string)
    ensures GeoPointByGeoNodeUuid(points, uuid).None? <==>
      forall i :: 0 <= i < |points| ==> points[i].idGeoKnoten != Some(uuid)
    ensures GeoPointByGeoNodeUuid(points, uuid).Some? ==>
      exists i :: (&& 0 <= i < |points| && points[i] == GeoPointByGeoNodeUuid(points, uuid).value
                   && points[i].idGeoKnoten == Some(uuid)
                   && forall j :: 0 <= j < i ==> points[j].idGeoKnoten != Some(uuid))
  {
    if points != [] && points[0].idGeoKnoten != Some(uuid) {
      GeoPointFirstMatch(points[1..], uuid);
      var r := GeoPointByGeoNodeUuid(points[1..], uuid);
      if r.Some? {
        var i :| 0 <= i < |points[1..]| && points[1..][i] == r.value
          && points[1..][i].idGeoKnoten == Some(uuid)
          && forall j :: 0 <= j < i ==> points[1..][j].idGeoKnoten != Some(uuid);
        assert forall j :: 1 <= j < i + 1 ==> points[j] == points[1..][j - 1];
        assert points[i + 1] == r.value;
      } else {
        assert forall i :: 1 <= i < |points| ==> points[i] == points[1..][i - 1];
      }
    } else if points != [] {
      assert points[0] == GeoPointByGeoNodeUuid(points, uuid).value;
    }
  }

  /** The four values returned by get_coordinates_of_geo_node. */
  datatype Coordinates = Coordinates(
    x: Option<real>,
    y: Option<real>,
    source: Option<string>,
    coordinateSystem: Option<string>)

  const NoCoordinates := Coordinates(None, None, None, None)

  /** The GEO_Koordinatensystem of a point, or GEO_KoordinatenSystem_LSys when
      that field is absent. */
  function CoordinateSystem(p: GeoPunkt): string
  {
    match p.koordinatensystem
    case Some(crs) => crs
    case None => p.koordinatensystemLSys
  }

  /** All four values are None exactly when no GEO_Punkt belongs to the geo
      node; otherwise they come from the first point that does. */
  function CoordinatesOfGeoNode(points: seq<GeoPunkt>, uuid: string): (r: Coordinates)
    ensures r == NoCoordinates <==> GeoPointByGeoNodeUuid(points, uuid).None?
    ensures r.x.None? <==> GeoPointByGeoNodeUuid(points, uuid).None?
    ensures GeoPointByGeoNodeUuid(points, uuid).Some? ==>
      var p := GeoPointByGeoNodeUuid(points, uuid).value;
      && r.x == Some(p.gkX) && r.y == Some(p.gkY) && r.source == Some(p.planQuelle)
      && (p.koordinatensystem.Some? ==> r.coordinateSystem == p.koordinatensystem)
      && (p.koordinatensystem.None? ==> r.coordinateSystem == Some(p.koordinatensystemLSys))
  {
    match GeoPointByGeoNodeUuid(points, uuid)
    case None => NoCoordinates
    case Some(p) => Coordinates(Some(p.gkX), Some(p.gkY), Some(p.planQuelle), Some(CoordinateSystem(p)))
  }

  /** The GEO_Kanten whose ID_GEO_Art is the TOP_Kante `topEdge`, in record
      order (its contract is `GeoEdgesFilterExact`). */
  function GeoEdgesByTopEdgeUuid(kanten: seq<GeoKante>, topEdge: string): seq<GeoKante>
  {
    if kanten == [] then []
    else if kanten[0].idGeoArt == topEdge then [kanten[0]] + GeoEdgesByTopEdgeUuid(kanten[1..], topEdge)
    else GeoEdgesByTopEdgeUuid(kanten[1..], topEdge)
  }

  /** Every GEO_Kante of the result belongs to `topEdge`, and each GEO_Kante
      of `topEdge` occurs in it as often as in the container. */
  lemma {:induction false} GeoEdgesFilterExact(kanten: seq<GeoKante>, topEdge: string)
    ensures forall g :: g in GeoEdgesByTopEdgeUuid(kanten, topEdge) ==> g.idGeoArt == topEdge
    ensures forall g :: multiset(GeoEdgesByTopEdgeUuid(kanten, topEdge))[g]
                     == if g.idGeoArt == topEdge then multiset(kanten)[g] else 0
  {
    if kanten != [] {
      GeoEdgesFilterExact(kanten[1..], topEdge);
      assert kanten == [kanten[0]] + kanten[1..];
    }
  }

  /** The filter keeps relative order: filtering a concatenation concatenates
      the filtered parts. */
  lemma {:induction false} GeoEdgesFilterDistributes(a: seq<GeoKante>, b: seq<GeoKante>, topEdge: string)
    ensures GeoEdgesByTopEdgeUuid(a + b, topEdge)
         == GeoEdgesByTopEdgeUuid(a, topEdge) + GeoEdgesByTopEdgeUuid(b, topEdge)
  {
    if a == [] {
      assert a + b == b;
    } else {
      assert (a + b)[1..] == a[1..] + b;
      GeoEdgesFilterDistributes(a[1..], b, topEdge);
    }
  }

  /** The loop of get_all_geo_edges_by_top_edge_uuid, appending each matching
      GEO_Kante to the result. */
  method AllGeoEdgesByTopEdgeUuid(kanten: seq<GeoKante>, topEdge: string) returns (result: seq<GeoKante>)
    ensures result == GeoEdgesByTopEdgeUuid(kanten, topEdge)
  {
    result := [];
    var i := 0;
    while i < |kanten|
      invariant 0 <= i <= |kanten|
      invariant result == GeoEdgesByTopEdgeUuid(kanten[..i], topEdge)
    {
      assert kanten[..i + 1] == kanten[..i] + [kanten[i]];
      GeoEdgesFilterDistributes(kanten[..i], [kanten[i]], topEdge);
      assert GeoEdgesByTopEdgeUuid([kanten[i]], topEdge)
          == if kanten[i].idGeoArt == topEdge then [kanten[i]] else [];
      if kanten[i].idGeoArt == topEdge {
        result := result + [kanten[i]];
      }
      i := i + 1;
    }
    assert kanten[..i] == kanten;
  }

  /** The containers of a file: those of LST_Planung's Ausgabe_Fachdaten in
      order, then LST_Zustand's; None stands for the ImportError raised when
      there is none. */
  function GetContainer(root: RootObject): (r: Option<seq<Container>>)
    ensures r.None? <==> (root.lstPlanung.None? || root.lstPlanung.value == []) && root.lstZustand.None?
    ensures r.Some? ==> r.value != []
    ensures r.Some? ==>
      r.value == (if root.lstPlanung.Some? then root.lstPlanung.value else [])
                 + (if root.lstZustand.Some? then [root.lstZustand.value] else [])
  {
    var planned := if root.lstPlanung.Some? then root.lstPlanung.value else [];
    var current := if root.lstZustand.Some? then [root.lstZustand.value] else [];
    if planned + current == [] then None else Some(planned + current)
  }

  function Reversed<T>(s: seq<T>): seq<T>
  {
    if s == [] then [] else Reversed(s[1..]) + [s[0]]
  }

  /** The reversal holds the elements of `s` from last to first. */
  lemma {:induction false} ReversedIndex<T>(s: seq<T>)
    ensures |Reversed(s)| == |s|
    ensures forall i :: 0 <= i < |s| ==> Reversed(s)[i] == s[|s| - 1 - i]
  {
    if s != [] {
      ReversedIndex(s[1..]);
    }
  }

  /** The geo converter: given a GEO_Kante and the GEO_Punkte of its two ends,
      it returns the points to insert along it. */
  type Densifier = (GeoKante, Option<GeoPunkt>, Option<GeoPunkt>) -> seq<GeoNode>

  /** DbrefGeoNode.get_distance_to_other_geo_node. */
  type Distance = (GeoNode, GeoNode) -> real

  /** What the reader of schema 1.9 densifies with: its optional geo converter
      and the distance between yaramo geo nodes. */
  datatype Geometry = Geometry(converter: Option<Densifier>, distance: Distance)

  /** Converter output put in path order, or the ValueError raised when both of
      its ends are equally far from the last confirmed geo node. */
  datatype Oriented = Oriented(nodes: seq<GeoNode>) | SameDistance

  /** Given the distances of the first and the last point from the last geo
      node: keep `out` when the first is nearer, reverse it when the last is,
      and fail on a tie. */
  function OrderByDistances(out: seq<GeoNode>, first: real, last: real): Oriented
  {
    if first < last then Oriented(out)
    else if first > last then Oriented(Reversed(out))
    else SameDistance
  }

  /** Orders `out` so that the end nearer `last` comes first. */
  function Orient(out: seq<GeoNode>, last: GeoNode, distance: Distance): Oriented
  {
    if |out| <= 1 then Oriented(out)
    else OrderByDistances(out, distance(last, out[0]), distance(last, out[|out| - 1]))
  }

  /** Output of at most one point is kept; longer output raises exactly when
      its ends are equally far from `last`, and is otherwise kept or reversed
      so that the strictly nearer end comes first. */
  lemma OrientSpec(out: seq<GeoNode>, last: GeoNode, distance: Distance)
    ensures |out| <= 1 ==> Orient(out, last, distance) == Oriented(out)
    ensures |out| > 1 ==>
      (Orient(out, last, distance).SameDistance? <==> distance(last, out[0]) == distance(last, out[|out| - 1]))
    ensures Orient(out, last, distance).Oriented? ==>
      Orient(out, last, distance).nodes == out || Orient(out, last, distance).nodes == Reversed(out)
    ensures Orient(out, last, distance).Oriented? ==> |Orient(out, last, distance).nodes| == |out|
    ensures Orient(out, last, distance).Oriented? && |out| > 1 ==>
      distance(last, Orient(out, last, distance).nodes[0])
        < distance(last, Orient(out, last, distance).nodes[|out| - 1])
  {
    ReversedIndex(out);
  }

  /** get_intermediate_geo_nodes_of_geo_edge: nothing without a converter;
      otherwise the converter output for `seg`, oriented away from the geo node
      `lastUuid`. */
  function IntermediateGeoNodes(
    points: seq<GeoPunkt>, seg: GeoKante, lastUuid: string,
    geo: Geometry): Oriented
  {
    match geo.converter
    case None => Oriented([])
    case Some(densify) =>
      var out := densify(seg, GeoPointByGeoNodeUuid(points, seg.knotenA),
                         GeoPointByGeoNodeUuid(points, seg.knotenB));
      var c := CoordinatesOfGeoNode(points, lastUuid);
      Orient(out, GeoNode(None, c.x, c.y, c.source, c.coordinateSystem), geo.distance)
  }

  /** Without a converter nothing is inserted; with one, output of at most one
      point is returned as it is, and longer output is returned with the same
      points, possibly reversed. */
  lemma IntermediateGeoNodesSpec(points: seq<GeoPunkt>, seg: GeoKante, lastUuid: string, geo: Geometry)
    ensures geo.converter.None? ==> IntermediateGeoNodes(points, seg, lastUuid, geo) == Oriented([])
    ensures geo.converter.Some? ==>
      var r := IntermediateGeoNodes(points, seg, lastUuid, geo);
      var out := geo.converter.value(seg, GeoPointByGeoNodeUuid(points, seg.knotenA),
                                     GeoPointByGeoNodeUuid(points, seg.knotenB));
      && (|out| <= 1 ==> r == Oriented(out))
      && (r.Oriented? ==> multiset(r.nodes) == multiset(out))
  {
    if geo.converter.Some? {
      var out := geo.converter.value(seg, GeoPointByGeoNodeUuid(points, seg.knotenA),
                                     GeoPointByGeoNodeUuid(points, seg.knotenB));
      var c := CoordinatesOfGeoNode(points, lastUuid);
      OrientSpec(out, GeoNode(None, c.x, c.y, c.source, c.coordinateSystem), geo.distance);
      ReversedPermutes(out);
    }
  }

  lemma {:induction false} ReversedPermutes<T>(s: seq<T>)
    ensures multiset(Reversed(s)) == multiset(s)
  {
    if s != [] {
      ReversedPermutes(s[1..]);
      assert s == [s[0]] + s[1..];
    }
  }
}
