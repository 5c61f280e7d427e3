/**
 * The signal pass of the schema 1.9 reader and of the legacy reader, which
 * share one filter: only active real signals with exactly one edge reference,
 * a Bezeichnung_Aussenanlage and the function Einfahr_Signal, Ausfahr_Signal or
 * Block_Signal are read. Neither reader passes supported states or a system,
 * so both keep yaramo's defaults.
 */
module FixedSignals {
  import opened Wrappers
  import opened PlanProRecords
  import opened Yaramo
  import opened Runs

  /** The three signal functions the readers accept. */
  const Functions: set<string> := {"Einfahr_Signal", "Ausfahr_Signal", "Block_Signal"}

  /** The record passes the four nested tests of the pass. */
  predicate Admitted(g: SignalRecord)
  {
    && g.signalReal.Some? && g.signalReal.value.aktivFunktion.Some?
    && |g.punkte| == 1
    && g.bezeichnung.Some? && g.bezeichnung.value.aussenanlage.Some?
    && g.signalReal.value.aktivFunktion.value in Functions
  }

  /** Building the signal of an admitted record raises when the record has no
      Signal_Real_Aktiv_Schirm or no Seitlicher_Abstand (AttributeError), or
      when its edge is not in the topology (KeyError). */
  predicate Buildable(s: TopoState, g: SignalRecord)
    requires Admitted(g)
  {
    && g.signalReal.value.schirm.Some?
    && g.punkte[0].seitlicherAbstand.Some?
    && g.punkte[0].idTopKante in s.edges
  }

  function NewSignal(g: SignalRecord): Signal
    requires Admitted(g) && g.signalReal.value.schirm.Some? && g.punkte[0].seitlicherAbstand.Some?
  {
    var p := g.punkte[0];
    Signal(g.uuid, g.signalReal.value.aktivFunktion.value, g.signalReal.value.schirm.value.signalArt,
           g.bezeichnung.value.aussenanlage.value, p.idTopKante, p.wirkrichtung,
           p.seitlicherAbstand.value, p.abstand, None, None)
  }

  /** One iteration of the pass. */
  function ReadSignal(s: TopoState, g: SignalRecord): Run
  {
    if !Admitted(g) then Done(s)
    else if !Buildable(s, g) then Raises
    else
      var e := g.punkte[0].idTopKante;
      Done(s.(signals := s.signals[g.uuid := NewSignal(g)],
              edges := s.edges[e := s.edges[e].(signals := s.edges[e].signals + [g.uuid])]))
  }

  function ReadSignalsFrom(s: TopoState, gs: seq<SignalRecord>): Run
    decreases |gs|
  {
    if gs == [] then Done(s)
    else
      match ReadSignalsFrom(s, gs[..|gs| - 1])
      case Done(s') => ReadSignal(s', gs[|gs| - 1])
      case other => other
  }

  lemma {:induction false} ReadSignalsStops(s: TopoState, gs: seq<SignalRecord>, i: nat)
    requires i <= |gs| && !ReadSignalsFrom(s, gs[..i]).Done?
    ensures ReadSignalsFrom(s, gs) == ReadSignalsFrom(s, gs[..i])
    decreases |gs| - i
  {
    if i < |gs| {
      assert gs[..i + 1][..i] == gs[..i];
      ReadSignalsStops(s, gs, i + 1);
    } else {
      assert gs[..i] == gs;
    }
  }

  method ReadOneSignal(t: Topology, g: SignalRecord) returns (status: Status)
    modifies t`signals, t`edges
    ensures RunOf(status, t.State()) == ReadSignal(old(t.State()), g)
  {
    if g.signalReal.None? || g.signalReal.value.aktivFunktion.None? {
      return Finished;
    }
    if |g.punkte| != 1 {
      return Finished;
    }
    if g.bezeichnung.None? || g.bezeichnung.value.aussenanlage.None? {
      return Finished;
    }
    var func := g.signalReal.value.aktivFunktion.value;
    if func != "Einfahr_Signal" && func != "Ausfahr_Signal" && func != "Block_Signal" {
      return Finished;
    }
    var e := g.punkte[0].idTopKante;
    if g.signalReal.value.schirm.None? || e !in t.edges || g.punkte[0].seitlicherAbstand.None? {
      return Raised;
    }
    t.AddSignal(NewSignal(g));
    t.AppendSignalToEdge(e, g.uuid);
    return Finished;
  }

  method ReadSignals(t: Topology, c: Container) returns (status: Status)
    modifies t`signals, t`edges
    ensures RunOf(status, t.State()) == ReadSignalsFrom(old(t.State()), c.signale)
  {
    ghost var s0 := t.State();
    var i := 0;
    while i < |c.signale|
      invariant 0 <= i <= |c.signale|
      invariant ReadSignalsFrom(s0, c.signale[..i]) == Done(t.State())
    {
      assert c.signale[..i + 1][..i] == c.signale[..i];
      status := ReadOneSignal(t, c.signale[i]);
      if status != Finished {
        ReadSignalsStops(s0, c.signale, i + 1);
        return;
      }
      i := i + 1;
    }
    assert c.signale[..i] == c.signale;
    return Finished;
  }

  /** A record that is not admitted changes nothing; an admitted one raises
      exactly when its signal cannot be built. Otherwise the signal is stored
      under its uuid, named by its Bezeichnung_Aussenanlage, with its function,
      screen kind, direction and distances, on the edge of its one reference,
      without supported states or system, and that edge lists it last; nothing
      else changes. */
  lemma ReadSignalEffect(s: TopoState, g: SignalRecord)
    ensures !Admitted(g) ==> ReadSignal(s, g) == Done(s)
    ensures ReadSignal(s, g) != Hangs
    ensures ReadSignal(s, g) == Raises <==> Admitted(g) && !Buildable(s, g)
    ensures Admitted(g) && Buildable(s, g) ==>
      var r := ReadSignal(s, g).state;
      var e := g.punkte[0].idTopKante;
      && r.nodes == s.nodes && r.routes == s.routes
      && r.signals.Keys == s.signals.Keys + {g.uuid}
      && (forall u :: u in s.signals && u != g.uuid ==> r.signals[u] == s.signals[u])
      && r.signals[g.uuid].uuid == g.uuid
      && r.signals[g.uuid].signalFunction == g.signalReal.value.aktivFunktion.value
      && r.signals[g.uuid].signalFunction in Functions
      && r.signals[g.uuid].name == g.bezeichnung.value.aussenanlage.value
      && r.signals[g.uuid].kind == g.signalReal.value.schirm.value.signalArt
      && r.signals[g.uuid].edge == e
      && r.signals[g.uuid].direction == g.punkte[0].wirkrichtung
      && r.signals[g.uuid].sideDistance == g.punkte[0].seitlicherAbstand.value
      && r.signals[g.uuid].distanceEdge == g.punkte[0].abstand
      && r.signals[g.uuid].supportedStates.None? && r.signals[g.uuid].system.None?
      && r.edges.Keys == s.edges.Keys
      && r.edges[e] == s.edges[e].(signals := s.edges[e].signals + [g.uuid])
      && (forall u :: u in s.edges && u != e ==> r.edges[u] == s.edges[u])
  {
  }

  /** Reading a record keeps a valid topology valid. */
  lemma ReadSignalKeepsValid(s: TopoState, g: SignalRecord)
    requires Valid(s) && ReadSignal(s, g).Done?
    ensures Valid(ReadSignal(s, g).state)
  {
    if Admitted(g) {
      ReadSignalEffect(s, g);
      var r := ReadSignal(s, g).state;
      assert KeyedByUuid(r);
      assert EdgesClosed(r);
      assert RoutesClosed(r);
      SignalPlacedKeepsClosed(s, r, g.uuid, g.punkte[0].idTopKante);
    }
  }

  lemma {:induction false} ReadSignalsKeepValid(s: TopoState, gs: seq<SignalRecord>)
    requires Valid(s) && ReadSignalsFrom(s, gs).Done?
    ensures Valid(ReadSignalsFrom(s, gs).state)
    decreases |gs|
  {
    if gs != [] {
      ReadSignalsKeepValid(s, gs[..|gs| - 1]);
      ReadSignalKeepsValid(ReadSignalsFrom(s, gs[..|gs| - 1]).state, gs[|gs| - 1]);
    }
  }

  /** The signal pass of both readers over all containers, in order. */
  function SignalPhase(s: TopoState, cs: seq<Container>): Run
    decreases |cs|
  {
    if cs == [] then Done(s)
    else
      match SignalPhase(s, cs[..|cs| - 1])
      case Done(s') => ReadSignalsFrom(s', cs[|cs| - 1].signale)
      case other => other
  }


  lemma {:induction false} SignalPhaseStops(s: TopoState, cs: seq<Container>, i: nat)
    requires i <= |cs| && !SignalPhase(s, cs[..i]).Done?
    ensures SignalPhase(s, cs) == SignalPhase(s, cs[..i])
    decreases |cs| - i
  {
    if i < |cs| {
      assert cs[..i + 1][..i] == cs[..i];
      SignalPhaseStops(s, cs, i + 1);
    } else {
      assert cs[..i] == cs;
    }
  }


  /** The signal loop of both readers: the signals of every container. */
  method ReadAllSignals(t: Topology, cs: seq<Container>) returns (status: Status)
    modifies t`edges, t`signals
    ensures RunOf(status, t.State()) == SignalPhase(old(t.State()), cs)
  {
    ghost var s0 := t.State();
    var i := 0;
    while i < |cs|
      invariant 0 <= i <= |cs|
      invariant SignalPhase(s0, cs[..i]) == Done(t.State())
    {
      assert cs[..i + 1][..i] == cs[..i];
      status := ReadSignals(t, cs[i]);
      if status != Finished {
        SignalPhaseStops(s0, cs, i + 1);
        return;
      }
      i := i + 1;
    }
    assert cs[..i] == cs;
    return Finished;
  }


  lemma {:induction false} SignalPhaseKeepsValid(s: TopoState, cs: seq<Container>)
    requires Valid(s) && SignalPhase(s, cs).Done?
    ensures Valid(SignalPhase(s, cs).state)
    decreases |cs|
  {
    if cs != [] {
      SignalPhaseKeepsValid(s, cs[..|cs| - 1]);
      ReadSignalsKeepValid(SignalPhase(s, cs[..|cs| - 1]).state, cs[|cs| - 1].signale);
    }
  }

  /** The signal pass changes neither the nodes nor the routes. */
  lemma {:induction false} ReadSignalsKeepRoutes(s: TopoState, gs: seq<SignalRecord>)
    requires ReadSignalsFrom(s, gs).Done?
    ensures ReadSignalsFrom(s, gs).state.nodes == s.nodes
    ensures ReadSignalsFrom(s, gs).state.routes == s.routes
    decreases |gs|
  {
    if gs != [] {
      ReadSignalsKeepRoutes(s, gs[..|gs| - 1]);
      ReadSignalEffect(ReadSignalsFrom(s, gs[..|gs| - 1]).state, gs[|gs| - 1]);
    }
  }

  lemma {:induction false} SignalPhaseKeepsRoutes(s: TopoState, cs: seq<Container>)
    requires SignalPhase(s, cs).Done?
    ensures SignalPhase(s, cs).state.nodes == s.nodes
    ensures SignalPhase(s, cs).state.routes == s.routes
    decreases |cs|
  {
    if cs != [] {
      SignalPhaseKeepsRoutes(s, cs[..|cs| - 1]);
      ReadSignalsKeepRoutes(SignalPhase(s, cs[..|cs| - 1]).state, cs[|cs| - 1].signale);
    }
  }
}
