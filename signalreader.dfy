/**
 * SignalReader of schema 1.10: turns the Signal records of a container into
 * signals on the edges of the topology, with the states their frames show.
 */
module SignalReader {
  import opened Wrappers
  import opened PlanProRecords
  import opened Yaramo
  import opened Runs

  /** What the reader consults in yaramo: the member names of SignalFunction,
      SignalState.get_state_by_string, and str(SignalFunction.Nicht_Definiert). */
  datatype Catalogue = Catalogue(
    functionMembers: set<string>,
    stateOf: Option<string> -> Option<SignalState>,
    notDefined: string)

  /** SignalKind.andere, SignalKind.FiktivesSignal and SignalSystem.andere. */
  const KindOther := "andere"
  const KindFictional := "FiktivesSignal"
  const SystemOther := "andere"

  /** The Signal_Rahmen of the signal `signal`, in record order. */
  function FramesOf(rahmen: seq<SignalRahmen>, signal: string): seq<SignalRahmen>
  {
    if rahmen == [] then []
    else if rahmen[0].idSignal == signal then [rahmen[0]] + FramesOf(rahmen[1..], signal)
    else FramesOf(rahmen[1..], signal)
  }

  /** A frame is among the frames of `signal` exactly when it names that signal. */
  lemma {:induction false} FramesOfExact(rahmen: seq<SignalRahmen>, signal: string)
    ensures forall f :: f in FramesOf(rahmen, signal) <==> f in rahmen && f.idSignal == signal
  {
    if rahmen != [] {
      FramesOfExact(rahmen[1..], signal);
      assert rahmen == [rahmen[0]] + rahmen[1..];
    }
  }

  /** The filter keeps record order. */
  lemma {:induction false} FramesOfDistributes(a: seq<SignalRahmen>, b: seq<SignalRahmen>, signal: string)
    ensures FramesOf(a + b, signal) == FramesOf(a, signal) + FramesOf(b, signal)
  {
    if a == [] {
      assert a + b == b;
    } else {
      assert (a + b)[1..] == a[1..] + b;
      FramesOfDistributes(a[1..], b, signal);
    }
  }

  /** get_signal_frames_by_signal_uuid. */
  method GetSignalFrames(rahmen: seq<SignalRahmen>, signal: string) returns (frames: seq<SignalRahmen>)
    ensures frames == FramesOf(rahmen, signal)
  {
    frames := [];
    var i := 0;
    while i < |rahmen|
      invariant 0 <= i <= |rahmen|
      invariant frames == FramesOf(rahmen[..i], signal)
    {
      assert rahmen[..i + 1] == rahmen[..i] + [rahmen[i]];
      FramesOfDistributes(rahmen[..i], [rahmen[i]], signal);
      assert FramesOf([rahmen[i]], signal) == if rahmen[i].idSignal == signal then [rahmen[i]] else [];
      if rahmen[i].idSignal == signal {
        frames := frames + [rahmen[i]];
      }
      i := i + 1;
    }
    assert rahmen[..i] == rahmen;
  }

  /** The string a term is looked up by: Kurzbezeichnung_DS, or Beschreibung
      when that is absent. */
  function TermString(b: Signalbegriff): Option<string>
  {
    if b.kurzbezeichnungDS.Some? then b.kurzbezeichnungDS else b.beschreibung
  }

  /** The states of the frame `frame`: the known states of the terms shown in it. */
  function StatesOfFrame(begriffe: seq<Signalbegriff>, frame: string, cat: Catalogue): set<SignalState>
  {
    set b | b in begriffe && b.idRahmen == frame && cat.stateOf(TermString(b)).Some? :: cat.stateOf(TermString(b)).value
  }

  /** get_signal_states_by_signal_frame_uuid. */
  method GetStatesOfFrame(begriffe: seq<Signalbegriff>, frame: string, cat: Catalogue) returns (terms: set<SignalState>)
    ensures terms == StatesOfFrame(begriffe, frame, cat)
  {
    terms := {};
    var i := 0;
    while i < |begriffe|
      invariant 0 <= i <= |begriffe|
      invariant terms == StatesOfFrame(begriffe[..i], frame, cat)
    {
      var term := begriffe[i];
      assert forall b :: b in begriffe[..i + 1] <==> b in begriffe[..i] || b == term by {
        assert begriffe[..i + 1] == begriffe[..i] + [term];
      }
      if term.idRahmen == frame {
        var termString := term.kurzbezeichnungDS;
        if termString.None? {
          termString := term.beschreibung;
        }
        var state := cat.stateOf(termString);
        if state.Some? {
          terms := terms + {state.value};
        }
      }
      i := i + 1;
    }
    assert begriffe[..i] == begriffe;
  }

  /** The supported states of `signal`: the union of the states of its frames. */
  function SupportedStates(c: Container, signal: string, cat: Catalogue): set<SignalState>
  {
    UnionOfFrames(FramesOf(c.rahmen, signal), c.begriffe, cat)
  }

  function UnionOfFrames(frames: seq<SignalRahmen>, begriffe: seq<Signalbegriff>, cat: Catalogue): set<SignalState>
  {
    if frames == [] then {}
    else UnionOfFrames(frames[..|frames| - 1], begriffe, cat) + StatesOfFrame(begriffe, frames[|frames| - 1].uuid, cat)
  }

  /** A state is supported exactly when some term of some frame of the signal
      shows it; a signal without frames supports no state. */
  lemma {:induction false} UnionOfFramesMembers(frames: seq<SignalRahmen>, begriffe: seq<Signalbegriff>, cat: Catalogue, x: SignalState)
    ensures x in UnionOfFrames(frames, begriffe, cat) <==>
      exists f, b :: f in frames && b in begriffe && b.idRahmen == f.uuid && cat.stateOf(TermString(b)) == Some(x)
  {
    if frames != [] {
      var init := frames[..|frames| - 1];
      var last := frames[|frames| - 1];
      UnionOfFramesMembers(init, begriffe, cat, x);
      assert forall f :: f in frames <==> f in init || f == last by {
        assert frames == init + [last];
      }
    }
  }

  /** get_supported_states_of_signal. */
  method GetSupportedStates(c: Container, signal: string, cat: Catalogue) returns (states: set<SignalState>)
    ensures states == SupportedStates(c, signal, cat)
  {
    states := {};
    var frames := GetSignalFrames(c.rahmen, signal);
    var i := 0;
    while i < |frames|
      invariant 0 <= i <= |frames|
      invariant states == UnionOfFrames(frames[..i], c.begriffe, cat)
    {
      assert frames[..i + 1][..i] == frames[..i];
      var frameStates := GetStatesOfFrame(c.begriffe, frames[i].uuid, cat);
      states := states + frameStates;
      i := i + 1;
    }
    assert frames[..i] == frames;
  }

  /** get_signal_identifier: Bezeichnung_Aussenanlage, else Bezeichnung_Tabelle. */
  function Identifier(g: SignalRecord): (r: Option<string>)
    ensures r.None? <==> g.bezeichnung.None? || (g.bezeichnung.value.aussenanlage.None? && g.bezeichnung.value.tabelle.None?)
    ensures r.Some? && g.bezeichnung.value.aussenanlage.Some? ==> r == g.bezeichnung.value.aussenanlage
    ensures g.bezeichnung.Some? && g.bezeichnung.value.aussenanlage.None? ==> r == g.bezeichnung.value.tabelle
  {
    if g.bezeichnung.None? then None
    else if g.bezeichnung.value.aussenanlage.Some? then g.bezeichnung.value.aussenanlage
    else g.bezeichnung.value.tabelle
  }

  /** get_signal_function; None stands for the exception a fictional signal
      without Signal_Fiktiv or with an empty function list raises. */
  function SignalFunction(g: SignalRecord, cat: Catalogue): (r: Option<string>)
    ensures r.None? <==> g.signalReal.None? && (g.signalFiktiv.None? || g.signalFiktiv.value.funktionen == [])
    ensures g.signalReal.Some? && g.signalReal.value.funktion != "" ==> r == Some(g.signalReal.value.funktion)
    ensures g.signalReal.Some? && g.signalReal.value.funktion == "" ==> r == Some(cat.notDefined)
    ensures g.signalReal.None? && r.Some? ==> r == Some(g.signalFiktiv.value.funktionen[0])
  {
    if g.signalReal.Some? then
      if g.signalReal.value.funktion == "" then Some(cat.notDefined) else Some(g.signalReal.value.funktion)
    else if g.signalFiktiv.None? || g.signalFiktiv.value.funktionen == [] then None
    else Some(g.signalFiktiv.value.funktionen[0])
  }

  /** get_signal_kind. */
  function Kind(g: SignalRecord): (r: string)
    ensures g.signalReal.None? ==> r == KindFictional
    ensures g.signalReal.Some? && g.signalReal.value.schirm.None? ==> r == KindOther
    ensures g.signalReal.Some? && g.signalReal.value.schirm.Some? ==> r == g.signalReal.value.schirm.value.signalArt
  {
    if g.signalReal.Some? then
      if g.signalReal.value.schirm.None? then KindOther else g.signalReal.value.schirm.value.signalArt
    else KindFictional
  }

  /** get_side_distance, of the first edge reference. */
  function SideDistance(p: PunktObjekt): (r: real)
    ensures p.seitlicherAbstand.None? ==> r == 0.0
    ensures p.seitlicherAbstand.Some? ==> r == p.seitlicherAbstand.value
  {
    if p.seitlicherAbstand.None? then 0.0 else p.seitlicherAbstand.value
  }

  /** The system read_signals_from_container gives a signal: get_signal_system
      for a real signal, SignalSystem.andere otherwise. */
  function System(g: SignalRecord): (r: string)
    ensures g.signalReal.None? || g.signalReal.value.schirm.None? ==> r == SystemOther
    ensures g.signalReal.Some? && g.signalReal.value.schirm.Some? ==> r == g.signalReal.value.schirm.value.signalsystem
  {
    if g.signalReal.Some? && g.signalReal.value.schirm.Some? then g.signalReal.value.schirm.value.signalsystem
    else SystemOther
  }

  /** The signal built for the record `g`. */
  function NewSignal(c: Container, g: SignalRecord, cat: Catalogue, name: string, func: string): Signal
    requires g.punkte != []
  {
    Signal(g.uuid, func, Kind(g), name, g.punkte[0].idTopKante, g.punkte[0].wirkrichtung,
           SideDistance(g.punkte[0]), g.punkte[0].abstand, Some(SupportedStates(c, g.uuid, cat)), Some(System(g)))
  }

  /** One iteration of read_signals_from_container. A signal without identifier,
      with a function that is no SignalFunction member, or whose first edge
      reference is not an edge of the topology is skipped; one without any
      edge reference raises. */
  function ReadSignal(s: TopoState, c: Container, g: SignalRecord, cat: Catalogue): Run
  {
    match Identifier(g)
    case None => Done(s)
    case Some(name) =>
      match SignalFunction(g, cat)
      case None => Raises
      case Some(func) =>
        if func !in cat.functionMembers then Done(s)
        else if g.punkte == [] then Raises
        else if g.punkte[0].idTopKante !in s.edges then Done(s)
        else
          var e := g.punkte[0].idTopKante;
          Done(s.(signals := s.signals[g.uuid := NewSignal(c, g, cat, name, func)],
                  edges := s.edges[e := s.edges[e].(signals := s.edges[e].signals + [g.uuid])]))
  }

  method ReadOneSignal(t: Topology, c: Container, g: SignalRecord, cat: Catalogue) returns (status: Status)
    modifies t`signals, t`edges
    ensures RunOf(status, t.State()) == ReadSignal(old(t.State()), c, g, cat)
  {
    var name := Identifier(g);
    if name.None? {
      return Finished;
    }
    var func := SignalFunction(g, cat);
    if func.None? {
      return Raised;
    }
    if func.value !in cat.functionMembers {
      return Finished;
    }
    if g.punkte == [] {
      return Raised;
    }
    var e := g.punkte[0].idTopKante;
    if e !in t.edges {
      return Finished;
    }
    var states := GetSupportedStates(c, g.uuid, cat);
    var system := SystemOther;
    if g.signalReal.Some? {
      system := System(g);
    }
    var signal := Signal(g.uuid, func.value, Kind(g), name.value, e, g.punkte[0].wirkrichtung,
                         SideDistance(g.punkte[0]), g.punkte[0].abstand, Some(states), Some(system));
    t.AddSignal(signal);
    t.AppendSignalToEdge(e, g.uuid);
    return Finished;
  }

  /** read_signals_from_container over the records `gs`, in order. */
  function ReadSignalsFrom(s: TopoState, c: Container, gs: seq<SignalRecord>, cat: Catalogue): Run
    decreases |gs|
  {
    if gs == [] then Done(s)
    else
      match ReadSignalsFrom(s, c, gs[..|gs| - 1], cat)
      case Done(s') => ReadSignal(s', c, gs[|gs| - 1], cat)
      case other => other
  }

  lemma {:induction false} ReadSignalsStops(s: TopoState, c: Container, gs: seq<SignalRecord>, cat: Catalogue, i: nat)
    requires i <= |gs| && !ReadSignalsFrom(s, c, gs[..i], cat).Done?
    ensures ReadSignalsFrom(s, c, gs, cat) == ReadSignalsFrom(s, c, gs[..i], cat)
    decreases |gs| - i
  {
    if i < |gs| {
      assert gs[..i + 1][..i] == gs[..i];
      ReadSignalsStops(s, c, gs, cat, i + 1);
    } else {
      assert gs[..i] == gs;
    }
  }

  method ReadSignals(t: Topology, c: Container, cat: Catalogue) returns (status: Status)
    modifies t`signals, t`edges
    ensures RunOf(status, t.State()) == ReadSignalsFrom(old(t.State()), c, c.signale, cat)
  {
    ghost var s0 := t.State();
    var i := 0;
    while i < |c.signale|
      invariant 0 <= i <= |c.signale|
      invariant ReadSignalsFrom(s0, c, c.signale[..i], cat) == Done(t.State())
    {
      assert c.signale[..i + 1][..i] == c.signale[..i];
      status := ReadOneSignal(t, c, c.signale[i], cat);
      if status != Finished {
        ReadSignalsStops(s0, c, c.signale, cat, i + 1);
        return;
      }
      i := i + 1;
    }
    assert c.signale[..i] == c.signale;
    return Finished;
  }

  /** The record yields a signal: it has an identifier, a function that is a
      SignalFunction member, and a first edge reference that is an edge. */
  predicate Placed(s: TopoState, g: SignalRecord, cat: Catalogue)
  {
    && Identifier(g).Some?
    && SignalFunction(g, cat).Some? && SignalFunction(g, cat).value in cat.functionMembers
    && g.punkte != [] && g.punkte[0].idTopKante in s.edges
  }

  /** A record never hangs; it raises exactly when it has an identifier and
      either no function can be read or its function is a member but it
      references no edge. */
  lemma ReadSignalFails(s: TopoState, c: Container, g: SignalRecord, cat: Catalogue)
    ensures ReadSignal(s, c, g, cat) != Hangs
    ensures ReadSignal(s, c, g, cat) == Raises <==>
      Identifier(g).Some? &&
      (SignalFunction(g, cat).None? || (SignalFunction(g, cat).value in cat.functionMembers && g.punkte == []))
  {
  }

  /** A record that is not placed changes nothing. A placed one stores a signal
      under its uuid, on the edge of its first reference, named by its
      identifier, with its function, kind, direction, distances, the states of
      its frames and its system; that edge lists it last; nothing else changes. */
  lemma ReadSignalEffect(s: TopoState, c: Container, g: SignalRecord, cat: Catalogue)
    requires ReadSignal(s, c, g, cat).Done?
    ensures !Placed(s, g, cat) ==> ReadSignal(s, c, g, cat).state == s
    ensures Placed(s, g, cat) ==>
      var r := ReadSignal(s, c, g, cat).state;
      var e := g.punkte[0].idTopKante;
      && r.nodes == s.nodes && r.routes == s.routes
      && r.signals.Keys == s.signals.Keys + {g.uuid}
      && (forall u :: u in s.signals && u != g.uuid ==> r.signals[u] == s.signals[u])
      && r.signals[g.uuid].uuid == g.uuid
      && r.signals[g.uuid].edge == e
      && r.signals[g.uuid].name == Identifier(g).value
      && r.signals[g.uuid].signalFunction == SignalFunction(g, cat).value
      && r.signals[g.uuid].kind == Kind(g)
      && r.signals[g.uuid].direction == g.punkte[0].wirkrichtung
      && r.signals[g.uuid].distanceEdge == g.punkte[0].abstand
      && r.signals[g.uuid].sideDistance == SideDistance(g.punkte[0])
      && r.signals[g.uuid].supportedStates == Some(SupportedStates(c, g.uuid, cat))
      && r.signals[g.uuid].system == Some(System(g))
      && r.edges.Keys == s.edges.Keys
      && r.edges[e] == s.edges[e].(signals := s.edges[e].signals + [g.uuid])
      && (forall u :: u in s.edges && u != e ==> r.edges[u] == s.edges[u])
  {
  }

  /** Reading a record keeps a valid topology valid: the new signal sits on an
      edge that lists it, and earlier signals stay listed by their edges. */
  lemma ReadSignalKeepsValid(s: TopoState, c: Container, g: SignalRecord, cat: Catalogue)
    requires Valid(s) && ReadSignal(s, c, g, cat).Done?
    ensures Valid(ReadSignal(s, c, g, cat).state)
  {
    if Placed(s, g, cat) {
      ReadSignalEffect(s, c, g, cat);
      var r := ReadSignal(s, c, g, cat).state;
      assert KeyedByUuid(r);
      assert EdgesClosed(r);
      assert RoutesClosed(r);
      SignalPlacedKeepsClosed(s, r, g.uuid, g.punkte[0].idTopKante);
    }
  }

  /** A container's signal pass keeps a valid topology valid. */
  lemma {:induction false} ReadSignalsKeepValid(s: TopoState, c: Container, gs: seq<SignalRecord>, cat: Catalogue)
    requires Valid(s) && ReadSignalsFrom(s, c, gs, cat).Done?
    ensures Valid(ReadSignalsFrom(s, c, gs, cat).state)
    decreases |gs|
  {
    if gs != [] {
      var init := gs[..|gs| - 1];
      ReadSignalsKeepValid(s, c, init, cat);
      ReadSignalKeepsValid(ReadSignalsFrom(s, c, init, cat).state, c, gs[|gs| - 1], cat);
    }
  }
}
