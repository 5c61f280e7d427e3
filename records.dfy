/**
 * The parsed PlanPro records the importer reads. The XML parser that produces
 * them is not part of this model; each record keeps only the fields the
 * reconstruction step looks at. A field that the bindings may leave empty is an
 * `Option`; the `.Wert` wrappers of the bindings are dropped.
 */
module PlanProRecords {
  import opened Wrappers

  /** GEO_Punkt: a surveyed position, optionally tied to a GEO_Knoten. */
  datatype GeoPunkt = GeoPunkt(
    idGeoKnoten: Option<string>,
    gkX: real,
    gkY: real,
    planQuelle: string,
    // GEO_Koordinatensystem (schema 1.9); absent in 1.10, where the
    // fallback GEO_KoordinatenSystem_LSys is read instead
    koordinatensystem: Option<string>,
    koordinatensystemLSys: string)

  /** GEO_Kante: one straight survey segment between two GEO_Knoten, belonging to
      the TOP_Kante named by ID_GEO_Art. */
  datatype GeoKante = GeoKante(
    uuid: string,
    knotenA: string,
    knotenB: string,
    idGeoArt: string,
    laenge: real)

  /** TOP_Knoten: a topological node and the GEO_Knoten it sits on. */
  datatype TopKnoten = TopKnoten(uuid: string, idGeoKnoten: string)

  /** TOP_Kante: a topological edge; the Anschluss tags say on which side of
      each end node the edge attaches ("Links", "Rechts" or anything else). */
  datatype TopKante = TopKante(
    uuid: string,
    knotenA: string,
    knotenB: string,
    anschlussA: string,
    anschlussB: string,
    laenge: real)

  /** Punkt_Objekt_TOP_Kante: where an object sits on a TOP_Kante. */
  datatype PunktObjekt = PunktObjekt(
    idTopKante: string,
    abstand: real,
    wirkrichtung: string,
    seitlicherAbstand: Option<real>)

  datatype Bezeichnung = Bezeichnung(aussenanlage: Option<string>, tabelle: Option<string>)

  /** Signal_Real_Aktiv_Schirm: the screen of a real signal. */
  datatype Schirm = Schirm(signalArt: string, signalsystem: string)

  /** Signal_Real. Schema 1.10 keeps the function in `funktion`; schema 1.9
      keeps it in Signal_Real_Aktiv, modelled by `aktivFunktion`. */
  datatype SignalReal = SignalReal(
    funktion: string,
    aktivFunktion: Option<string>,
    schirm: Option<Schirm>)

  /** Signal_Fiktiv: the list Fiktives_Signal_Funktion. */
  datatype SignalFiktiv = SignalFiktiv(funktionen: seq<string>)

  datatype SignalRecord = SignalRecord(
    uuid: string,
    signalReal: Option<SignalReal>,
    signalFiktiv: Option<SignalFiktiv>,
    bezeichnung: Option<Bezeichnung>,
    punkte: seq<PunktObjekt>)

  /** Signal_Rahmen: a frame of the signal ID_Signal. */
  datatype SignalRahmen = SignalRahmen(uuid: string, idSignal: string)

  /** Signal_Signalbegriff: one term shown in the frame ID_Signal_Rahmen. */
  datatype Signalbegriff = Signalbegriff(
    idRahmen: string,
    kurzbezeichnungDS: Option<string>,
    beschreibung: Option<string>)

  /** W_Kr_Gsp_Element: a switch element and its outside name
      Bezeichnung.Bezeichnung_Aussenanlage, absent when the element has no
      Bezeichnung or no Bezeichnung_Aussenanlage. */
  datatype WKrGspElement = WKrGspElement(uuid: string, bezeichnungAussenanlage: Option<string>)

  /** W_Kr_Gsp_Komponente: a switch component of the element ID_W_Kr_Gsp_Element. */
  datatype WKrGspKomponente = WKrGspKomponente(
    uuid: string,
    idElement: string,
    punkte: seq<PunktObjekt>)

  /** Fstr_Fahrweg: a route from ID_Start to ID_Ziel over the TOP_Kanten of its
      Bereich_Objekt_Teilbereich records. */
  datatype FstrFahrweg = FstrFahrweg(
    uuid: string,
    vHg: Option<int>,
    idStart: string,
    idZiel: string,
    teilbereiche: seq<string>)

  /** One PlanPro container. */
  datatype Container = Container(
    topKnoten: seq<TopKnoten>,
    topKante: seq<TopKante>,
    geoPunkt: seq<GeoPunkt>,
    geoKante: seq<GeoKante>,
    signale: seq<SignalRecord>,
    rahmen: seq<SignalRahmen>,
    begriffe: seq<Signalbegriff>,
    elemente: seq<WKrGspElement>,
    komponenten: seq<WKrGspKomponente>,
    fahrwege: seq<FstrFahrweg>)

  /** The root object: LST_Planung holds the target-state containers of its
      Ausgabe_Fachdaten in order; LST_Zustand holds one more container. */
  datatype RootObject = RootObject(
    lstPlanung: Option<seq<Container>>,
    lstZustand: Option<Container>,
    werkzeugName: string,
    werkzeugVersion: string)
}
