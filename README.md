# PlanPro importer: a Dafny model of topology reconstruction

The PlanPro importer reads railway planning data (DB's PlanPro XML, schema
versions 1.9 and 1.10, plus an older "legacy" reader) into a yaramo topology:
maps from uuid to node, edge, signal and route. The parsed file is a set of
flat records that refer to each other by uuid: TOP_Knoten, TOP_Kante,
GEO_Punkt, GEO_Kante, Signal, Signal_Rahmen, Signal_Signalbegriff,
W_Kr_Gsp_Element/Komponente and Fstr_Fahrweg. The importer resolves these
references. It filters the nodes that have coordinates, connects the nodes of
every edge by the Links/Rechts/head rule, and walks each edge's unordered
GEO_Kanten from node_a's geo node to node_b's. It names switch nodes, attaches
signals to their edges with the states their frames show, and builds routes
between signals that resolve.

This project models that reconstruction step:

- `records.dfy`: the parsed records, as datatypes with `Option` fields.
- `yaramo.dfy`: the target model. The class `Topology` holds four maps, which
  the readers update in place. Its value `TopoState` carries the invariants
  `Bare` and `Valid`.
- `utils.dfy`, `nodereader.dfy`, `signalreader.dfy`, `routereader.dfy` and
  `uuidfinder.dfy`: one module per source file of lookups and readers.
- `geochain.dfy`: the geo-chain walk, which both schema readers share.
- `reader110.dfy`, `reader19.dfy`, `legacyreader.dfy` and `fixedsignals.dfy`:
  the three readers. `fixedsignals.dfy` holds the signal filter that the 1.9
  and legacy readers share.
- `runs.dfy`: how a pass ends. `Done(state)` is a normal finish. `Raises`
  stands for any Python exception the code raises. `Hangs` is a loop that never
  ends.
- `filenames.dfy`: the file-name handling.
- `wrappers.dfy`: `Option`.

Every source loop that updates the topology or builds up a result is a method
with a `while` loop. The loops that only search a list for its first match are
recursive functions: the GEO_Punkt lookup, the component lookup, the first
GEO_Kante and the next GEO_Kante of the chain walk. Lemmas prove that each of
these returns the first match. Each loop method is proved equal to a left fold
over the records, for example
`t.State() == ReadNodesFrom(old(t.State()), ...)` or
`RunOf(status, t.State()) == Import(...)`. Lemmas then state what those folds
do: which entities appear and with which fields, what stays unchanged, when a
pass raises or hangs, and that every finished import is `Valid`. `Valid` means:

- every entity is keyed by its uuid;
- every edge joins two nodes;
- every signal sits on an edge that lists it;
- every route joins two signals over existing edges.

## Model

| member | source | states |
|---|---|---|
| Utils.GeoPointFirstMatch | planpro_importer/utils.py:28-41 | the lookup is None exactly when no GEO_Punkt carries the geo node's uuid (points without ID_GEO_Knoten never match); otherwise it is the first point that does |
| Utils.CoordinatesOfGeoNode | planpro_importer/utils.py:6-25 | all four values are None exactly when the point lookup fails; otherwise GK_X, GK_Y, Plan_Quelle and GEO_Koordinatensystem of the first matching point, falling back to GEO_KoordinatenSystem_LSys when the former is absent |
| Utils.GeoEdgesFilterExact | planpro_importer/utils.py:44-50 | every returned GEO_Kante belongs to the TOP_Kante, and every GEO_Kante of that TOP_Kante occurs as often as in the container |
| Utils.GeoEdgesFilterDistributes | planpro_importer/utils.py:44-50 | the filter keeps record order: filtering a concatenation concatenates the filtered parts |
| Utils.AllGeoEdgesByTopEdgeUuid | planpro_importer/utils.py:44-50 | the appending loop returns exactly the order-preserving filter |
| Utils.GetContainer | planpro_importer/utils.py:53-67 | the Ausgabe_Fachdaten containers in order, then the LST_Zustand container; ImportError (None) exactly when both are missing or empty; a returned list is never empty |
| Utils.OrientSpec | planpro_importer/utils.py:87-97 | output of at most one point is kept as it is; longer output raises ValueError exactly on equal end distances, and otherwise comes back kept or reversed, same length, with the strictly nearer end first |
| Utils.IntermediateGeoNodesSpec | planpro_importer/utils.py:79-98 | without a converter nothing is inserted; with one, short output is returned unchanged and any returned output is a permutation of the converter's points |
| Utils.ReversedPermutes | planpro_importer/utils.py:95 | the reversed converter output holds the same points |
| Yaramo.Connected | planpro_importer/utils.py:70-76 | "Links" fills only the left slot, "Rechts" only the right one, any other tag only the head; uuid, geo node and name are kept |
| Yaramo.ConnectPair | planpro_importer/planpro110/reader110.py:78-91 | after both ends are connected, each named slot holds its target; each end node is changed only by the connection rule `Connected` (applied twice to one node for a loop), so its other two slots keep their values; every node keeps uuid, geo node and name; other nodes and the other maps are untouched |
| Yaramo.SignalPlacedKeepsClosed | planpro_importer/planpro110/signalreader.py:188-189 | storing a signal and appending it to its edge's list keeps every signal listed by its edge |
| Yaramo.Topology.constructor | planpro_importer/planpro110/reader110.py:19-21 | a topology with the given name and tool string and no entities |
| Yaramo.Topology.AddNode | planpro_importer/planpro110/nodereader.py:33 | the node is stored under its uuid and nothing else changes |
| Yaramo.Topology.AddEdge | planpro_importer/planpro110/reader110.py:151 | the edge is stored under its uuid and nothing else changes |
| Yaramo.Topology.AddSignal | planpro_importer/planpro110/signalreader.py:188 | the signal is stored under its uuid and nothing else changes |
| Yaramo.Topology.AddRoute | planpro_importer/routereader.py:44 | the route is stored under its uuid and nothing else changes |
| Yaramo.Topology.SetConnection | planpro_importer/utils.py:70-76 | one slot of one stored node is set by the Links/Rechts/head rule |
| Yaramo.Topology.SetNodeName | planpro_importer/planpro110/nodereader.py:45 | only the name of that node changes |
| Yaramo.Topology.AppendSignalToEdge | planpro_importer/planpro110/signalreader.py:189 | the signal is appended to that edge's list only |
| FileNames.Normalised | planpro_importer/planpro110/reader110.py:14-16 | the name always ends in ".ppxml"; it is unchanged exactly when it already did, and otherwise ".ppxml" is appended |
| FileNames.NormalisedIdempotent | planpro_importer/reader.py:7-12 | normalising twice is normalising once |
| FileNames.LastComponent | planpro_importer/planpro19/reader19.py:14 | `split("/")[-1]`: a '/'-free suffix of the name, preceded by '/' when shorter than the name |
| FileNames.NamesAgree | planpro_importer/planpro19/reader19.py:14 | for a normalised name, the 1.9 name (last component minus six characters) equals the 1.10 pathlib stem, except for a bare ".ppxml" component |
| NodeReader.CoordinatesOfGeoNode | planpro_importer/planpro110/nodereader.py:101-117 | (None, None) exactly when no GEO_Punkt has the geo node; otherwise GK_X and GK_Y of the first that has it |
| NodeReader.ReadNodes | planpro_importer/planpro110/nodereader.py:20-33 | the loop leaves the topology in the state of the fold `ReadNodesFrom` |
| NodeReader.ReadNodeEffect | planpro_importer/planpro110/nodereader.py:23-33 | a TOP_Knoten with coordinates is stored under its uuid, with a geo node carrying its ID_GEO_Knoten; one without changes nothing; no other node changes |
| NodeReader.ReadNodesKeys | planpro_importer/planpro110/nodereader.py:20-33 | afterwards a uuid is a node exactly when it was one or some located TOP_Knoten has it; other maps unchanged |
| NodeReader.ReadNodesValues | planpro_importer/planpro110/nodereader.py:20-33 | every node afterwards is an earlier one or comes from a located TOP_Knoten with its geo node uuid |
| NodeReader.LastFive | planpro_importer/planpro110/nodereader.py:50 | `uuid[-5:]`: the last five characters, or all of a shorter uuid |
| NodeReader.ComponentByElementUuid | planpro_importer/planpro110/nodereader.py:52-62 | None exactly when no component names the element; otherwise the first that does |
| NodeReader.EndNode | planpro_importer/planpro110/nodereader.py:72-89 | None for a missing edge or an interior distance; distance 0.0 gives node_a (tested first), the full length gives node_b |
| NodeReader.GetPointOfComponent | planpro_importer/planpro110/nodereader.py:64-99 | None exactly when there is no reference or some reference is not at an edge end; otherwise the node of the first reference, since the check at line 93 never fires |
| NodeReader.NamePointOfElement | planpro_importer/planpro110/nodereader.py:39-45 | one element names the node its component resolves to, if any |
| NodeReader.NameRemainingNodes | planpro_importer/planpro110/nodereader.py:47-50 | every node still without a name gets the last five characters of its uuid |
| NodeReader.AddPointNames | planpro_importer/planpro110/nodereader.py:35-50 | both loops together leave the state `AddPointNamesSpec` |
| NodeReader.NameElementsOnlyRenames | planpro_importer/planpro110/nodereader.py:39-45 | the element loop only changes names, and every changed name is some element's Bezeichnung_Aussenanlage |
| NodeReader.NameLastElementWins | planpro_importer/planpro110/nodereader.py:39-45 | the last element resolving to a node gives that node its Bezeichnung_Aussenanlage, overwriting earlier names |
| NodeReader.AddPointNamesNamesAll | planpro_importer/planpro110/nodereader.py:35-50 | afterwards every node of the whole topology has a name: a resolved point name, else its earlier name, else the last five characters of its uuid; a node the element loop named keeps exactly that name |
| NodeReader.ReadNodesKeepBare | planpro_importer/planpro110/nodereader.py:20-33 | reading nodes keeps the topology keyed by uuid with closed edges |
| NodeReader.AddPointNamesKeepsBare | planpro_importer/planpro110/nodereader.py:35-50 | naming keeps the topology keyed by uuid with closed edges |
| GeoChain.FirstTouching | planpro_importer/planpro110/reader110.py:101-108 | first_edge is None exactly when no GEO_Kante touches node_a's geo node; otherwise it is a listed GEO_Kante that touches it |
| GeoChain.FirstTouchingFirst | planpro_importer/planpro19/reader19.py:59-66 | a found first_edge is the first GEO_Kante in the list that touches node_a's geo node, as the loop breaks at the first match |
| GeoChain.NextSegmentFirst | planpro_importer/planpro110/reader110.py:119-130 | the next segment is None exactly when none touches the current GEO_Knoten without touching the previous one; otherwise it is the first such segment |
| GeoChain.WalkAlongChain | planpro_importer/planpro110/reader110.py:132-146 | on a simple chain, the walk from any position reaches the last GEO_Knoten and passes exactly the GEO_Knoten in between |
| GeoChain.ChainWalkOnSimpleChain | planpro_importer/planpro110/reader110.py:101-146 | for a simple chain of N GEO_Kanten the walk reaches node_b's geo node and passes its N-1 interior GEO_Knoten in path order, each once, neither end among them |
| GeoChain.ChainWalkOrderIndependent | planpro_importer/planpro110/reader110.py:119-130 | permuting the GEO_Kanten of a simple chain does not change the walk |
| GeoChain.InteriorGeoNodes | planpro_importer/planpro110/reader110.py:134-136 | one geo node per GEO_Knoten passed, in order, carrying that GEO_Knoten's uuid; it has x and y exactly when some GEO_Punkt names the GEO_Knoten, and they are GK_X and GK_Y of the first such point; no data source or coordinate system |
| GeoChain.InteriorGeoNodesAgree | planpro_importer/planpro19/reader19.py:92-94 | both schema versions record the same geo node (uuid and coordinates) for a GEO_Knoten passed |
| GeoChain.Walk19WithoutConverter | planpro_importer/planpro19/reader19.py:91-100 | without a converter the 1.9 walk ends as the 1.10 walk, a broken chain becoming a failure |
| GeoChain.Chain19WithoutConverter | planpro_importer/planpro19/reader19.py:59-100 | without a converter the 1.9 chain of a TOP_Kante is the 1.10 chain |
| GeoChain.SpliceWithoutPoints | planpro_importer/planpro19/reader19.py:91-100 | with no converter points anywhere, splicing the GEO_Knoten passed gives exactly their geo nodes, as recorded by the 1.10 walk |
| GeoChain.Walk19Stops | planpro_importer/planpro19/reader19.py:73-100 | with any converter, a walk that breaks after a GEO_Knoten makes the 1.9 loop raise, and one out of fuel makes it raise or never end |
| GeoChain.Walk19Reached | planpro_importer/planpro19/reader19.py:73-100 | with any converter, when the walk reaches the target past the GEO_Knoten `us`, the 1.9 loop builds each GEO_Knoten's geo node followed by the oriented converter points of the segment leaving it, or raises exactly when one of those segments has equally distant ends |
| GeoChain.Chain19AlongWalk | planpro_importer/planpro19/reader19.py:59-100 | per TOP_Kante with any converter: a reached walk yields first_edge's oriented points followed by the spliced chain along the GEO_Knoten passed, or raises exactly on a segment with equally distant ends; a broken walk raises; a walk out of fuel raises or never ends |
| Reader110.WalkGeoChain | planpro_importer/planpro110/reader110.py:115-146 | the while loop ends as the walk `ChainWalk` does: completed with the geo nodes passed, broken after a GEO_Knoten, or never |
| Reader110.ReadEdgeFails | planpro_importer/planpro110/reader110.py:71-146 | a TOP_Kante raises exactly when a node lookup or the start of the walk fails, and hangs exactly when the walk never ends |
| Reader110.ReadEdgeEffect | planpro_importer/planpro110/reader110.py:78-157 | both nodes are connected to each other by the Links/Rechts/head rule whatever the walk does, their other slots and all other nodes staying as they were; the edge, with the TOP_Kante's uuid, nodes, length and interior geo nodes, is added exactly when the walk reaches node_b; nothing else changes |
| Reader110.ReadEdgeOnSimpleChain | planpro_importer/planpro110/reader110.py:101-151 | on a simple chain of N GEO_Kanten the edge is added with the N-1 interior geo nodes in path order |
| Reader110.ReadOneEdge | planpro_importer/planpro110/reader110.py:72-157 | one iteration ends as `ReadEdge` says |
| Reader110.ReadEdgesStops | planpro_importer/planpro110/reader110.py:71-157 | once a TOP_Kante raises or hangs, so does the whole pass |
| Reader110.ReadEdges | planpro_importer/planpro110/reader110.py:71-157 | the TOP_Kante loop ends as the fold `ReadEdgesFrom` |
| Reader110.ResolvedEdgeListExact | planpro_importer/planpro110/reader110.py:185-189 | the route's list holds each existing referenced edge as often as it is referenced, and nothing else |
| Reader110.CollectEdgeList | planpro_importer/planpro110/reader110.py:185-189 | the appending loop returns exactly that list |
| Reader110.ReadOneRoute | planpro_importer/planpro110/reader110.py:164-200 | one Fstr_Fahrweg is read as `ReadRoute` says |
| Reader110.ReadRoutes | planpro_importer/planpro110/reader110.py:163-200 | the loop ends in the state of the fold `ReadRoutesFrom` |
| Reader110.ReadRouteEffect | planpro_importer/planpro110/reader110.py:164-200 | a route is added exactly when both signals resolve, with those signals, the speed, the name "start-end" and the list of existing referenced edges; nothing else changes |
| Reader110.ReadRouteAgreesWith19 | planpro_importer/planpro110/reader110.py:184-189 | the 1.10 route equals the one RouteReader builds except that its edges are a list holding exactly the edges of RouteReader's set |
| Reader110.ReadRoutesKeepValid | planpro_importer/planpro110/reader110.py:163-200 | the route pass keeps the topology valid |
| Reader110.ReadEdgeKeepsBare | planpro_importer/planpro110/reader110.py:71-157 | an added edge joins two existing nodes |
| Reader110.ReadEdgesKeepBare | planpro_importer/planpro110/reader110.py:71-157 | a finished edge pass keeps the topology bare |
| Reader110.TopologyPhaseKeepsBare | planpro_importer/planpro110/reader110.py:43-47 | the topology loop keeps the topology bare |
| Reader110.SignalPhaseKeepsValid | planpro_importer/planpro110/reader110.py:48-49 | the signal loop keeps the topology valid |
| Reader110.RoutePhaseKeepsValid | planpro_importer/planpro110/reader110.py:50-51 | the route loop keeps the topology valid |
| Reader110.ImportValid | planpro_importer/planpro110/reader110.py:40-53 | every finished import into a fresh topology is valid |
| Reader110.CreatedWithReadsBack | planpro_importer/planpro110/reader110.py:30-38 | tool name and version can be read back from "{tool} (Version: {version})" |
| Reader110.TopologyPhaseStops | planpro_importer/planpro110/reader110.py:43-47 | a container that raises or hangs ends the topology loop |
| Reader110.SignalPhaseStops | planpro_importer/planpro110/reader110.py:48-49 | a container that raises ends the signal loop |
| Reader110.ReadContainerTopology | planpro_importer/planpro110/reader110.py:44-47 | nodes, then edges, then point names of one container |
| Reader110.ReadTopologies | planpro_importer/planpro110/reader110.py:43-47 | the first loop ends as `TopologyPhase` |
| Reader110.ReadAllSignals | planpro_importer/planpro110/reader110.py:48-49 | the second loop ends as `SignalPhase` |
| Reader110.ReadAllRoutes | planpro_importer/planpro110/reader110.py:50-51 | the third loop ends in `RoutePhase` |
| Reader110.ReadSignalsAndRoutes | planpro_importer/planpro110/reader110.py:48-51 | once the topologies are read, the signal loop and then the route loop end as `SignalsAndRoutes` |
| Reader110.PlanProReader110.constructor | planpro_importer/planpro110/reader110.py:13-21 | normalised file name, topology named after its pathlib stem, created_with from the tool fields, no entities |
| Reader110.PlanProReader110.ReadTopologyFromPlanProFile | planpro_importer/planpro110/reader110.py:40-69 | ImportError without containers; otherwise all topologies, then all signals, then all routes, as `Import` |
| SignalReader.FramesOfExact | planpro_importer/planpro110/signalreader.py:32-36 | a frame is returned exactly when its ID_Signal is the signal |
| SignalReader.GetSignalFrames | planpro_importer/planpro110/signalreader.py:26-36 | the loop returns the frames of the signal in record order |
| SignalReader.GetStatesOfFrame | planpro_importer/planpro110/signalreader.py:38-55 | the loop returns the known states of the frame's terms, each looked up by Kurzbezeichnung_DS or else Beschreibung |
| SignalReader.UnionOfFramesMembers | planpro_importer/planpro110/signalreader.py:57-70 | a state is supported exactly when some term of some frame shows it; no frames, no states |
| SignalReader.GetSupportedStates | planpro_importer/planpro110/signalreader.py:57-70 | the loop returns the union over the signal's frames |
| SignalReader.Identifier | planpro_importer/planpro110/signalreader.py:104-116 | None exactly when there is no Bezeichnung or neither name; Bezeichnung_Aussenanlage is preferred, and without it the name is Bezeichnung_Tabelle |
| SignalReader.SignalFunction | planpro_importer/planpro110/signalreader.py:72-88 | a real signal's own function (Nicht_Definiert when empty); a fictional one's first function; failure exactly for a fictional signal without functions |
| SignalReader.Kind | planpro_importer/planpro110/signalreader.py:91-101 | FiktivesSignal for a signal without Signal_Real, andere for a real one without screen, and otherwise the screen's Signal_Art |
| SignalReader.SideDistance | planpro_importer/planpro110/signalreader.py:119-127 | the Seitlicher_Abstand of the position when it is present, and 0.0 when it is absent |
| SignalReader.System | planpro_importer/planpro110/signalreader.py:173-175 | the screen's Signalsystem for a real signal with a screen, and andere otherwise |
| SignalReader.ReadOneSignal | planpro_importer/planpro110/signalreader.py:141-189 | one iteration ends as `ReadSignal` says |
| SignalReader.ReadSignalsStops | planpro_importer/planpro110/signalreader.py:140-189 | a raising record ends the pass |
| SignalReader.ReadSignals | planpro_importer/planpro110/signalreader.py:140-189 | the loop ends as the fold `ReadSignalsFrom` |
| SignalReader.ReadSignalFails | planpro_importer/planpro110/signalreader.py:143-165 | a record never hangs; it raises exactly when it has an identifier and either no readable function, or a member function but no edge reference |
| SignalReader.ReadSignalEffect | planpro_importer/planpro110/signalreader.py:143-189 | a skipped record changes nothing; a placed one is stored under its uuid with its name, function, kind, direction, distances, supported states and system, and appended last to its own edge only |
| SignalReader.ReadSignalKeepsValid | planpro_importer/planpro110/signalreader.py:176-189 | reading one record keeps the topology valid |
| SignalReader.ReadSignalsKeepValid | planpro_importer/planpro110/signalreader.py:140-189 | a finished signal pass keeps the topology valid |
| RouteReader.RouteName | planpro_importer/routereader.py:39 | "{start.name}-{end.name}": both names can be read back around the '-' |
| RouteReader.CollectEdgeSet | planpro_importer/routereader.py:28-33 | the loop returns the set of referenced edges that exist |
| RouteReader.ReadOneRoute | planpro_importer/routereader.py:8-44 | one Fstr_Fahrweg is read as `ReadRoute` says |
| RouteReader.ReadRoutes | planpro_importer/routereader.py:7-44 | the loop ends in the state of the fold `ReadRoutesFrom` |
| RouteReader.ReadRouteEffect | planpro_importer/routereader.py:8-44 | a route is added exactly when both signals resolve, with those signals, the speed, the name "start-end" and exactly the existing referenced edges; otherwise nothing changes |
| RouteReader.ReadRoutesKeys | planpro_importer/routereader.py:7-44 | the routes afterwards are the earlier ones plus one per record whose signals resolve; other maps unchanged |
| RouteReader.ReadRoutesKeepValid | planpro_importer/routereader.py:7-44 | the route pass keeps the topology valid |
| FixedSignals.ReadOneSignal | planpro_importer/planpro19/reader19.py:106-148 | one iteration ends as `ReadSignal` says |
| FixedSignals.ReadSignalsStops | planpro_importer/planpro19/reader19.py:105-148 | a raising record ends the pass |
| FixedSignals.ReadSignals | planpro_importer/reader.py:61-82 | the loop ends as the fold `ReadSignalsFrom` |
| FixedSignals.ReadSignalEffect | planpro_importer/planpro19/reader19.py:109-148 | a record that is not an active real signal with one edge reference, an outdoor name and one of the three functions changes nothing; an admitted one raises exactly when screen, side distance or edge is missing; otherwise the signal is stored with the record's fields and no states or system, and appended last to its own edge only |
| FixedSignals.ReadSignalKeepsValid | planpro_importer/planpro19/reader19.py:131-148 | reading one record keeps the topology valid |
| FixedSignals.ReadSignalsKeepValid | planpro_importer/planpro19/reader19.py:105-148 | a finished signal pass keeps the topology valid |
| FixedSignals.SignalPhaseStops | planpro_importer/planpro19/reader19.py:22-23 | a container that raises ends the signal loop |
| FixedSignals.ReadAllSignals | planpro_importer/planpro19/reader19.py:22-23 | the signal loop ends as `SignalPhase` |
| FixedSignals.SignalPhaseKeepsValid | planpro_importer/reader.py:22-24 | the signal loop keeps the topology valid |
| FixedSignals.ReadSignalsKeepRoutes | planpro_importer/reader.py:61-82 | the signal pass changes neither nodes nor routes |
| FixedSignals.SignalPhaseKeepsRoutes | planpro_importer/reader.py:22-24 | the signal loop changes neither nodes nor routes |
| Reader19.ReadNodesAgree | planpro_importer/planpro19/reader19.py:30-41 | the node loop, with x and y as the first two values, reads exactly the nodes the 1.10 node reader reads |
| Reader19.NodeUnpackRaises | planpro_importer/planpro19/reader19.py:36 | as written, any TOP_Knoten makes the loop raise, while the corrected loop stores every located TOP_Knoten |
| Reader19.ReadNodes | planpro_importer/planpro19/reader19.py:30-41 | the corrected node loop ends in the state of `ReadNodesFrom` |
| Reader19.EdgeUnpackRaises | planpro_importer/planpro19/reader19.py:92 | as written, a simple chain of two or more GEO_Kanten makes the edge loop raise, while the corrected loop adds the edge with the chain's interior geo nodes |
| Reader19.ReadEdgeWithoutConverter | planpro_importer/planpro19/reader19.py:43-103 | without a converter a TOP_Kante raises exactly where the 1.10 walk breaks, hangs where it never ends, and otherwise gets the 1.10 interior geo nodes |
| Reader19.ReadEdgeEffect | planpro_importer/planpro19/reader19.py:43-103 | raises exactly on a failed lookup, broken chain or tie, hangs exactly on an endless walk; otherwise both nodes point at the edge by the Links/Rechts/head rule, their other slots and all other nodes staying as they were, and the edge is always added with its chain of geo nodes; nothing else changes |
| Reader19.WalkGeoChain | planpro_importer/planpro19/reader19.py:73-100 | the while loop ends as `Chain19Walk`, which `GeoChain.Chain19AlongWalk` relates to the 1.10 walk for any converter |
| Reader19.ReadOneEdge | planpro_importer/planpro19/reader19.py:44-103 | one iteration ends as `ReadEdge` says |
| Reader19.ReadEdgesStops | planpro_importer/planpro19/reader19.py:43-103 | a raising or hanging TOP_Kante ends the pass |
| Reader19.ReadEdges | planpro_importer/planpro19/reader19.py:43-103 | the loop ends as the fold `ReadEdgesFrom` |
| Reader19.ReadTopologyFromContainer | planpro_importer/planpro19/reader19.py:29-103 | nodes, then edges, of one container |
| Reader19.TopologyPhaseStops | planpro_importer/planpro19/reader19.py:20-21 | a container that raises or hangs ends the topology loop |
| Reader19.ReadTopologies | planpro_importer/planpro19/reader19.py:20-21 | the first loop ends as `TopologyPhase` |
| Reader19.ReadAllRoutes | planpro_importer/planpro19/reader19.py:24-25 | the route loop, through RouteReader, ends in `RoutePhase` |
| Reader19.ReadSignalsAndRoutes | planpro_importer/planpro19/reader19.py:22-25 | once the topologies are read, the signal loop and then the route loop end as `SignalsAndRoutes` |
| Reader19.ReadEdgeKeepsBare | planpro_importer/planpro19/reader19.py:43-103 | an added edge joins two existing nodes |
| Reader19.ReadEdgesKeepBare | planpro_importer/planpro19/reader19.py:43-103 | a finished edge pass keeps the topology bare |
| Reader19.TopologyPhaseKeepsBare | planpro_importer/planpro19/reader19.py:20-21 | the topology loop keeps the topology bare |
| Reader19.RoutePhaseKeepsValid | planpro_importer/planpro19/reader19.py:24-25 | the route loop keeps the topology valid |
| Reader19.ImportValid | planpro_importer/planpro19/reader19.py:16-27 | every finished import into a fresh topology is valid |
| Reader19.PlanProReader19.constructor | planpro_importer/planpro19/reader19.py:9-14 | normalised file name, the geo converter kept, topology named by the last component minus six characters, no entities |
| Reader19.PlanProReader19.ReadTopologyFromPlanProFile | planpro_importer/planpro19/reader19.py:16-27 | ImportError without containers; otherwise all topologies, then all signals, then all routes, as `Import` |
| LegacyReader.ReadNodesEffect | planpro_importer/reader.py:29-32 | every TOP_Knoten becomes the node under its uuid, with no geo filter; earlier nodes stay unless their uuid is reused; nothing else changes |
| LegacyReader.ReadNodesKeys | planpro_importer/reader.py:29-32 | the node uuids afterwards are the earlier ones plus those of the TOP_Knoten |
| LegacyReader.ReadNodesStored | planpro_importer/reader.py:29-32 | each TOP_Knoten's node is stored under its uuid; untouched nodes keep their value |
| LegacyReader.ReadNodes | planpro_importer/reader.py:29-32 | the loop ends in the state of `ReadNodesFrom` |
| LegacyReader.ReadEdgeEffect | planpro_importer/reader.py:34-59 | raises exactly when an end node is missing; otherwise both nodes point at each other by the Links/Rechts/head rule, their other slots and all other nodes staying as they were, and the edge with the record's length is added; nothing else changes |
| LegacyReader.ReadOneEdge | planpro_importer/reader.py:34-59 | one iteration ends as `ReadEdge` says |
| LegacyReader.ReadEdgesStops | planpro_importer/reader.py:34-59 | a raising TOP_Kante ends the pass |
| LegacyReader.ReadEdges | planpro_importer/reader.py:34-59 | the loop ends as the fold `ReadEdgesFrom` |
| LegacyReader.ReadEdgesOutcome | planpro_importer/reader.py:34-59 | the pass never hangs and raises exactly when some TOP_Kante names a missing node; otherwise every TOP_Kante is an edge, node uuids stay, signals and routes unchanged |
| LegacyReader.ReadTopologyFromContainer | planpro_importer/reader.py:28-59 | nodes, then edges, of one container |
| LegacyReader.TopologyPhaseStops | planpro_importer/reader.py:18-20 | a raising container ends the topology loop |
| LegacyReader.ReadTopologies | planpro_importer/reader.py:18-20 | the first loop ends as `TopologyPhase` |
| LegacyReader.ReadNodesKeepBare | planpro_importer/reader.py:29-32 | reading nodes keeps the topology bare |
| LegacyReader.ReadEdgeKeepsBare | planpro_importer/reader.py:34-59 | an added edge joins two existing nodes |
| LegacyReader.ReadEdgesKeepBare | planpro_importer/reader.py:34-59 | a finished edge pass keeps the topology bare |
| LegacyReader.TopologyPhaseKeepsBare | planpro_importer/reader.py:18-20 | the topology loop keeps the topology bare |
| LegacyReader.ImportValid | planpro_importer/reader.py:14-26 | every finished import into a fresh topology is valid and has no routes |
| LegacyReader.PlanProReader.constructor | planpro_importer/reader.py:7-12 | normalised file name and an empty topology |
| LegacyReader.PlanProReader.ReadTopologyFromPlanProFile | planpro_importer/reader.py:14-26 | raises without LST_Planung; otherwise the topology of every Ausgabe_Fachdaten container, then their signals, as `Import` |
| UuidFinder.FirstWithUuidSpec | planpro_importer/uuidfinder.py:5-7 | the inner search is None exactly when no element has the uuid, and otherwise returns the first that has it |
| UuidFinder.FindByUuidIsFirstListed | planpro_importer/uuidfinder.py:1-8 | the nested search equals one search over all list elements in attribute order, then list order |
| UuidFinder.FindByUuidNone | planpro_importer/uuidfinder.py:8 | None exactly when no list-valued attribute holds an element with the uuid |
| UuidFinder.FindByUuidFirst | planpro_importer/uuidfinder.py:2-7 | a found element has the uuid, and no element before it in attribute-then-list order has it |
| UuidFinder.ScalarsIgnored | planpro_importer/uuidfinder.py:3 | attributes that are not lists never affect the result |
| UuidFinder.FindInfrastructureElementByUuid | planpro_importer/uuidfinder.py:1-8 | the nested loops with early return compute `FindByUuid` and change nothing |

## Left out

- Parsing the XML files and the generated bindings are not part of this model. The readers take the parsed records (`RootObject`, `Container`) as input.
- yaramo is modelled only as far as the importer uses it. Its Topology, Node, Edge, Signal and Route are values keyed by uuid, and objects refer to each other by uuid, so the model does not capture object aliasing. SignalState.get_state_by_string, the members of SignalFunction and str(SignalFunction.Nicht_Definiert) are parameters (`SignalReader.Catalogue`). Enumeration values are strings.
- The geo converter and DbrefGeoNode.get_distance_to_other_geo_node are parameters (`Utils.Geometry`). Floating-point lengths, distances and coordinates are `real`, so there is no rounding or NaN.
- _get_created_at of the 1.10 reader reads a datetime and is not modelled. The 1.9 and legacy readers leave created_with empty, which the model writes as "".
- The bookkeeping of `length_remaining` in the 1.10 reader is not modelled, because it is computed and never used.
- Logging and print calls are not modelled. The model does not warn: it skips where the source skips.
- planproimporter.py (the version dispatcher) is not part of this model. It only hands off to the readers. Because its default argument is the PlanProReader19 class, a call without a version returns None.
- The local read_routes_from_container of the 1.9 reader is not modelled: it is never called, and it is identical to RouteReader's.
- GeoChain.Fuel: the walk runs for at most 2·|segments| steps, and running out of steps is taken to mean the source loop never ends. That rests on the source loop's state being a directed pair of segment ends, so after 2·|segments| steps a state must repeat. This argument is not proved.
- GeoChain.ChainWalk: the source raises when no GEO_Kante touches node_a's geo node. ChainWalk requires that such a segment exists, and its callers return `Raises` without calling it when none does (`Walkable`).
- NodeReader.AddPointNames: requires every W_Kr_Gsp_Element to be complete (`NodeReader.ElementComplete`): it has a Bezeichnung_Aussenanlage, and it has a component. When one lacks either, the source raises part-way through the loop. A missing Bezeichnung or Bezeichnung_Aussenanlage gives an AttributeError at nodereader.py:41, and a missing component fails inside get_point_of_component. The callers model that as `Raises` for the whole container (`Reader110.ElementsComplete`) without running the loop. The names set by earlier elements before the exception are not modelled, because the import stops there.
- FileNames.PathStem models pathlib's stem only for the suffix rule, not for other path normalisation ('.', '..', trailing '/').
- UuidFinder: a container is seen as its attributes in order, each either a list or a single value. Reading Identitaet.Wert is the parameter `uuidOf`, because the bindings are generated code.
- GeoChain.Chain19AlongWalk: for a walk that runs out of fuel it states only that the 1.9 loop raises or never ends, not which one. That depends on whether a segment with equally distant ends comes up before the repetition.
- LegacyReader: reader.py passes Abstand as `distance_previous_node`. The model stores it in the signal's `distanceEdge` field and does not check yaramo's keyword names.

## Findings

| source | as written | input that shows it | evidently intended | confidence | as-written member | corrected member |
|---|---|---|---|---|---|---|
| planpro_importer/planpro19/reader19.py:36 | `x, y = Utils.get_coordinates_of_geo_node(...)` unpacks the four values that utils.py:15,25 returns into two names, which raises ValueError | any container with one TOP_Knoten, whether or not its geo node has a GEO_Punkt | x and y are the first two values, and a TOP_Knoten without coordinates is skipped, as in the 1.10 node reader | not executed | Reader19.NodeUnpackRaises | Reader19.ReadNodesAgree |
| planpro_importer/planpro19/reader19.py:92 | the same two-name unpacking inside the walk loop raises on its first pass; in the file as written line 36 (or, with no TOP_Knoten, the KeyError at line 46) raises first, so this applies once line 36 is corrected | a TOP_Kante whose GEO_Kanten form a simple chain of two or more segments between node_a's and node_b's geo nodes | each GEO_Knoten passed is recorded with its x and y, so the edge gets the chain's interior geo nodes | not executed | Reader19.EdgeUnpackRaises | Reader19.ReadEdgeWithoutConverter |
