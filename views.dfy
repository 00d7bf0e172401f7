/** The pieces of the dashboard views that hold logic of their own: the
    in-memory cache of the cleaned frame and of the rendered charts, the
    order in which the frame path composes the cleaners, the folding of small
    event slices into `OTROS`, the coordinate fallback of the map and the
    pagination of the records table. */
module Views {
  import opened Wrappers
  import opened Text
  import opened PyValues
  import opened Tables
  import opened Fields
  import opened DataCleaner
  import Models
  import opened Secuencias

  // ---------------------------------------------------------------------------
  // The frame path: each column cleaned in turn

  /** A record with its aid fields cleaned and its event cleaned by
      `limpiar_texto` and then `limpiar_evento`: what the event
      post-processing reads. */
  function FilaAntesDePostProceso(rec: Record): (a: Record)
    requires Evento in rec
    ensures EventoIsStr(a) && AidsAreInts(a)
  {
    CleanAidsAreInts(rec);
    CleanAids(rec, AidFields)[Evento := Str(LimpiarEvento(Str(LimpiarTexto(rec[Evento]))))]
  }

  /** The event the frame path gives a record. */
  function EventoVista(rec: Record): string
    requires Evento in rec
  {
    PostProcess(FilaAntesDePostProceso(rec))
  }

  /** What each column of the frame becomes. The date column goes through
      `pd.to_datetime` and is kept as it is here. */
  function CampoVista(rec: Record, k: Field): Value
    requires k in rec
  {
    if IsAid(k) then Int(LimpiarNumero(rec[k]))
    else if k == Evento then Str(EventoVista(rec))
    else if k == Departamento then Str(LimpiarDepartamento(rec[k]))
    else if IsText(k) then Str(LimpiarTexto(rec[k]))
    else rec[k]
  }

  /** A row of the cleaned frame. */
  function FilaVista(rec: Record): Record {
    map k | k in rec :: CampoVista(rec, k)
  }

  /** The cleaned frame: one cleaned row per database row, in order. */
  function Limpiado(registros: seq<Record>): (df: seq<Record>)
    ensures |df| == |registros|
    ensures forall i :: 0 <= i < |df| ==> df[i] == FilaVista(registros[i])
  {
    seq(|registros|, i requires 0 <= i < |registros| => FilaVista(registros[i]))
  }

  /** Apart from the event, the frame path cleans every field exactly as
      `limpiar_registro_completo` does. */
  lemma FilaVistaComparada(rec: Record)
    ensures FilaVista(rec).Keys == CleanRecord(rec).Keys
    ensures forall k :: k in rec && k != Evento ==> FilaVista(rec)[k] == CleanRecord(rec)[k]
  {
    CleanRecordAll(rec);
  }

  /** The event key of a stripped text without a hyphen is the text
      upper-cased. */
  lemma ClaveSinGuion(s: string)
    requires '-' !in s && IsStripped(s)
    ensures EventKey(s) == Upper(s)
  {
    BeforeHyphenNoHyphen(s);
    StripOfStripped(s);
  }

  lemma CentinelaEnMayusculas(s: string)
    requires s == SinEspecificarTexto
    ensures Upper(s) == SinEspecificar
  {
    var u := Upper(s);
    assert u[0] == 'S' && u[1] == 'I' && u[2] == 'N' && u[3] == ' ' && u[4] == 'E';
    assert u[5] == 'S' && u[6] == 'P' && u[7] == 'E' && u[8] == 'C' && u[9] == 'I';
    assert u[10] == 'F' && u[11] == 'I' && u[12] == 'C' && u[13] == 'A' && u[14] == 'R';
    assert forall i :: 0 <= i < |u| ==> u[i] == SinEspecificar[i];
  }

  /** The event key of the text sentinel is the upper-case sentinel. */
  lemma ClaveDelCentinela()
    ensures EventKey(SinEspecificarTexto) == SinEspecificar
  {
    ClaveSinGuion(SinEspecificarTexto);
    CentinelaEnMayusculas(SinEspecificarTexto);
  }

  lemma CentinelaSinAlias()
    ensures EventAlias("SIN ESPECIFICAR") == None
  {
  }

  /** `limpiar_evento` keeps the text sentinel, upper-cased. */
  lemma EventoDelCentinela()
    ensures LimpiarEvento(Str(SinEspecificarTexto)) == SinEspecificar
  {
    ClaveDelCentinela();
    CentinelaSinAlias();
  }

  /** The upper-case sentinel is not `SIN EVENTO`, in any padding. */
  lemma CentinelaNoEsSinEvento()
    ensures !IsSinEvento(SinEspecificar)
  {
    var s := SinEspecificar;
    assert !HasLower(s);
    UpperOfNoLower(s);
    StripOfStripped(s);
  }

  /** A missing event (`None`, `NaN`, the empty string) becomes `SIN
      ESPECIFICAR` on the frame path, which the post-processing never
      reclassifies, while `limpiar_registro_completo` gives `SIN EVENTO` or a
      reclassified label. */
  lemma EventoFaltanteDiverge(rec: Record)
    requires Evento in rec && Missing(rec[Evento])
    ensures EventoVista(rec) == SinEspecificar
    ensures CleanEvento(rec) in {SinEvento, Inundacion, Temporal, Asistencia}
  {
    EventoDelCentinela();
    CentinelaNoEsSinEvento();
    var a := CleanAids(rec, AidFields);
    CleanAidsAreInts(rec);
    CleanAidsAt(rec, Evento);
    EventoStepFacts(a);
    ReclassifiedLabels();
    assert EventoOf(EventoStep(a)) == SinEvento;
  }

  /** The empty key is no alias. */
  lemma ClaveVacia()
    ensures EventAlias("") == None
  {
  }

  /** A whitespace-only event is the other way round: `limpiar_texto` empties
      it, so `limpiar_evento` sees a missing value and the frame path gives
      `SIN EVENTO` or a reclassified label, while `limpiar_registro_completo`
      gives the empty string. */
  lemma EventoEnBlancoDiverge(rec: Record, s: string)
    requires Evento in rec && rec[Evento] == Str(s) && s != [] && AllSpace(s)
    ensures EventoVista(rec) in {SinEvento, Inundacion, Temporal, Asistencia}
    ensures CleanEvento(rec) == ""
  {
    TextoOfBlank(s);
    AllSpaceNoHyphen(s);
    BeforeHyphenNoHyphen(s);
    StripAllSpace(s);
    ClaveVacia();
    assert EventKey(s) == "";
    ReclassifiedLabels();
    var b := FilaAntesDePostProceso(rec);
    assert EventoOf(b) == SinEvento;
    CleanEventoKept(rec);
  }

  /** `limpiar_texto` before `limpiar_evento` does not change the event key
      of a text that is not blank. */
  lemma ClaveTitulada(p: string)
    requires Strip(p) != []
    ensures EventKey(Title(Strip(p))) == EventKey(p)
  {
    var t := Title(Strip(p));
    StripShape(p);
    TitleKeepsStripped(Strip(p));
    StripOfStripped(t);
    UpperOfTitle(Strip(p));
    EventKeyUpper(t);
    EventKeyUpper(p);
  }

  /** For any other present event both paths agree. */
  lemma EventoPresenteCoincide(rec: Record)
    requires Evento in rec && !Missing(rec[Evento]) && Strip(PyStr(rec[Evento])) != []
    ensures EventoVista(rec) == CleanEvento(rec)
  {
    var p := PyStr(rec[Evento]);
    ClaveTitulada(p);
    var t := Title(Strip(p));
    assert LimpiarTexto(rec[Evento]) == t;
    assert !Missing(Str(t));
    assert LimpiarEvento(Str(t)) == LimpiarEvento(rec[Evento]);
    CleanAidsAt(rec, Evento);
  }

  // ---------------------------------------------------------------------------
  // The module cache

  /** `CACHE_TIMEOUT_SECONDS` */
  const CacheTimeoutSeconds: real := 300.0

  /** `_cache`: the cleaned frame, the time it was built and the rendered
      charts by name. The clock is a parameter of each operation. */
  class Cache {
    var cleanedDf: Option<seq<Record>>
    var lastDfUpdate: real
    var graphs: map<string, string>

    constructor ()
      ensures cleanedDf == None && lastDfUpdate == 0.0 && graphs == map[]
    {
      cleanedDf := None;
      lastDfUpdate := 0.0;
      graphs := map[];
    }

    /** Less than the timeout has passed since the frame was built. */
    predicate Vigente(now: real)
      reads this
    {
      now - lastDfUpdate < CacheTimeoutSeconds
    }

    /** `_get_cleaned_dataframe`: the cached frame while it is fresh;
        otherwise the frame is rebuilt from the database rows, stored with
        the current time, and every cached chart is dropped. */
    method GetCleanedDataframe(now: real, registros: seq<Record>) returns (df: seq<Record>)
      modifies this
      ensures old(cleanedDf.Some? && Vigente(now)) ==>
        df == old(cleanedDf.value) && cleanedDf == old(cleanedDf) &&
        lastDfUpdate == old(lastDfUpdate) && graphs == old(graphs)
      ensures !old(cleanedDf.Some? && Vigente(now)) ==>
        df == Limpiado(registros) && cleanedDf == Some(df) &&
        lastDfUpdate == now && graphs == map[]
    {
      if cleanedDf.Some? && now - lastDfUpdate < CacheTimeoutSeconds {
        return cleanedDf.value;
      }
      if registros == [] {
        df := [];
      } else {
        df := Limpiado(registros);
      }
      cleanedDf := Some(df);
      lastDfUpdate := now;
      graphs := map[];
    }

    /** `_get_cached_graph`: the stored chart while the frame is fresh;
        otherwise the chart is generated from the given frame and stored
        under its name. */
    method GetCachedGraph(now: real, name: string, df: seq<Record>, generar: seq<Record> -> string)
      returns (graphic: string)
      modifies this
      ensures old(name in graphs && Vigente(now)) ==>
        graphic == old(graphs[name]) && graphs == old(graphs)
      ensures !old(name in graphs && Vigente(now)) ==>
        graphic == generar(df) && graphs == old(graphs)[name := graphic]
      ensures cleanedDf == old(cleanedDf) && lastDfUpdate == old(lastDfUpdate)
    {
      if name in graphs && now - lastDfUpdate < CacheTimeoutSeconds {
        return graphs[name];
      }
      graphic := generar(df);
      graphs := graphs[name := graphic];
    }
  }

  // ---------------------------------------------------------------------------
  // generar_grafico_por_evento: small slices folded into OTROS

  /** One row of `df.groupby('evento').size()`: an event and how many rows
      carry it. */
  datatype Grupo = Grupo(evento: string, total: int)

  /** `total.sum()` */
  function TotalDe(gs: seq<Grupo>): int {
    if gs == [] then 0 else TotalDe(gs[..|gs| - 1]) + gs[|gs| - 1].total
  }

  /** `threshold_percent` */
  const Umbral: real := 3.0

  /** `(total / total.sum()) * 100`, in exact arithmetic. */
  function Porcentaje(total: int, suma: int): real
    requires suma > 0
  {
    (total as real / suma as real) * 100.0
  }

  /** A slice large enough to be drawn on its own. */
  predicate Grande(g: Grupo, suma: int)
    requires suma > 0
  {
    Porcentaje(g.total, suma) >= Umbral
  }

  /** `df_grouped[percentage >= threshold_percent]`, in order. */
  function Grandes(gs: seq<Grupo>, suma: int): seq<Grupo>
    requires suma > 0
  {
    if gs == [] then []
    else
      var g := gs[|gs| - 1];
      Grandes(gs[..|gs| - 1], suma) + if Grande(g, suma) then [g] else []
  }

  /** `df_grouped[percentage < threshold_percent]`, in order. */
  function Pequenos(gs: seq<Grupo>, suma: int): seq<Grupo>
    requires suma > 0
  {
    if gs == [] then []
    else
      var g := gs[|gs| - 1];
      Pequenos(gs[..|gs| - 1], suma) + if Grande(g, suma) then [] else [g]
  }

  lemma {:induction false} TotalPositivo(gs: seq<Grupo>)
    requires gs != [] && forall i :: 0 <= i < |gs| ==> gs[i].total > 0
    ensures TotalDe(gs) > 0
  {
    if |gs| > 1 {
      TotalPositivo(gs[..|gs| - 1]);
    }
  }

  /** The slices as drawn: the large events in order, then one `OTROS`
      slice holding the small ones when there are any. The groups come from a
      non-empty `groupby(...).size()`, so each has at least one row. */
  function Plegado(gs: seq<Grupo>): seq<Grupo>
    requires gs != [] && forall i :: 0 <= i < |gs| ==> gs[i].total > 0
  {
    TotalPositivo(gs);
    var suma := TotalDe(gs);
    var pequenos := Pequenos(gs, suma);
    Grandes(gs, suma) + if pequenos == [] then [] else [Grupo("OTROS", TotalDe(pequenos))]
  }

  /** The percentage test is the integer comparison `100 * total >= 3 * sum`. */
  lemma PorcentajeEntero(total: int, suma: int)
    requires suma > 0
    ensures Porcentaje(total, suma) >= Umbral <==> 100 * total >= 3 * suma
  {
    var q := total as real / suma as real;
    assert q * suma as real == total as real;
    if q * 100.0 >= 3.0 {
      assert q * 100.0 * suma as real >= 3.0 * suma as real;
    } else {
      assert q * 100.0 * suma as real < 3.0 * suma as real;
    }
  }

  lemma {:induction false} TotalDeConcat(a: seq<Grupo>, b: seq<Grupo>)
    ensures TotalDe(a + b) == TotalDe(a) + TotalDe(b)
  {
    if b != [] {
      assert (a + b)[..|a + b| - 1] == a + b[..|b| - 1];
      assert (a + b)[|a + b| - 1] == b[|b| - 1];
      TotalDeConcat(a, b[..|b| - 1]);
      assert TotalDe(a + b) == TotalDe(a + b[..|b| - 1]) + b[|b| - 1].total;
    } else {
      assert a + b == a;
    }
  }

  /** Splitting by the threshold loses no row: the totals of the large and
      the small groups add up to the whole. */
  lemma {:induction false} TotalesParticion(gs: seq<Grupo>, suma: int)
    requires suma > 0
    ensures TotalDe(Grandes(gs, suma)) + TotalDe(Pequenos(gs, suma)) == TotalDe(gs)
  {
    if gs != [] {
      var init := gs[..|gs| - 1];
      var g := gs[|gs| - 1];
      TotalesParticion(init, suma);
      TotalDeConcat(Grandes(init, suma), if Grande(g, suma) then [g] else []);
      TotalDeConcat(Pequenos(init, suma), if Grande(g, suma) then [] else [g]);
    }
  }

  /** The large groups are exactly the groups with `100 * total >= 3 * sum`. */
  lemma {:induction false} MiembrosGrandes(gs: seq<Grupo>, suma: int)
    requires suma > 0
    ensures forall g :: g in Grandes(gs, suma) <==> g in gs && 100 * g.total >= 3 * suma
  {
    if gs != [] {
      var init := gs[..|gs| - 1];
      MiembrosGrandes(init, suma);
      PorcentajeEntero(gs[|gs| - 1].total, suma);
      assert gs == init + [gs[|gs| - 1]];
    }
  }

  /** The small groups are exactly the groups with `100 * total < 3 * sum`. */
  lemma {:induction false} MiembrosPequenos(gs: seq<Grupo>, suma: int)
    requires suma > 0
    ensures forall g :: g in Pequenos(gs, suma) <==> g in gs && 100 * g.total < 3 * suma
  {
    if gs != [] {
      var init := gs[..|gs| - 1];
      MiembrosPequenos(init, suma);
      PorcentajeEntero(gs[|gs| - 1].total, suma);
      assert gs == init + [gs[|gs| - 1]];
    }
  }

  /** The drawn slices add up to the number of rows. */
  lemma PlegadoConservaTotal(gs: seq<Grupo>)
    requires gs != [] && forall i :: 0 <= i < |gs| ==> gs[i].total > 0
    ensures TotalDe(Plegado(gs)) == TotalDe(gs)
  {
    TotalPositivo(gs);
    var suma := TotalDe(gs);
    TotalesParticion(gs, suma);
    var pequenos := Pequenos(gs, suma);
    TotalDeConcat(Grandes(gs, suma), if pequenos == [] then [] else [Grupo("OTROS", TotalDe(pequenos))]);
    assert [Grupo("OTROS", TotalDe(pequenos))][..0] == [];
  }

  /** An `OTROS` slice is appended exactly when some event is under 3%, and
      then it holds the rows of all of them, after the slices of the events
      at or above 3%. */
  lemma PlegadoOtros(gs: seq<Grupo>)
    requires gs != [] && forall i :: 0 <= i < |gs| ==> gs[i].total > 0
    ensures TotalDe(gs) > 0
    ensures var suma := TotalDe(gs);
      var r := Plegado(gs);
      var chicos := exists i :: 0 <= i < |gs| && 100 * gs[i].total < 3 * suma;
      |r| == |Grandes(gs, suma)| + (if chicos then 1 else 0) &&
      r[..|Grandes(gs, suma)|] == Grandes(gs, suma) &&
      (chicos ==> r[|r| - 1] == Grupo("OTROS", suma - TotalDe(Grandes(gs, suma))))
  {
    TotalPositivo(gs);
    var suma := TotalDe(gs);
    TotalesParticion(gs, suma);
    MiembrosPequenos(gs, suma);
    var pequenos := Pequenos(gs, suma);
    var chicos := exists i :: 0 <= i < |gs| && 100 * gs[i].total < 3 * suma;
    if chicos {
      var i :| 0 <= i < |gs| && 100 * gs[i].total < 3 * suma;
      assert gs[i] in pequenos;
    } else if pequenos != [] {
      assert pequenos[0] in gs;
    }
  }

  /** Every event at or above 3% keeps a slice of its own, and every slice
      before `OTROS` is such an event. */
  lemma PlegadoConservaGrandes(gs: seq<Grupo>)
    requires gs != [] && forall i :: 0 <= i < |gs| ==> gs[i].total > 0
    ensures TotalDe(gs) > 0
    ensures var suma := TotalDe(gs);
      var r := Plegado(gs);
      (forall i :: 0 <= i < |gs| && 100 * gs[i].total >= 3 * suma ==> gs[i] in r) &&
      (forall j :: 0 <= j < |Grandes(gs, suma)| ==> r[j] in gs && 100 * r[j].total >= 3 * suma)
  {
    TotalPositivo(gs);
    var suma := TotalDe(gs);
    MiembrosGrandes(gs, suma);
    var grandes := Grandes(gs, suma);
    forall i | 0 <= i < |gs| && 100 * gs[i].total >= 3 * suma ensures gs[i] in Plegado(gs) {
      assert gs[i] in grandes;
    }
    forall j | 0 <= j < |grandes| ensures grandes[j] in gs && 100 * grandes[j].total >= 3 * suma {
      assert grandes[j] in grandes;
    }
  }

  // ---------------------------------------------------------------------------
  // datos_mapa_view: coordinates of a department

  datatype Coordenadas = Coordenadas(lat: real, lng: real, zoom: int)

  /** The centre of Paraguay, for a department without coordinates of its own. */
  const CentroParaguay: Coordenadas := Coordenadas(-23.442503, -58.443832, 6)

  /** `coordenadas_departamentos` */
  function TablaCoordenadas(departamento: string): Option<Coordenadas> {
    match departamento
    case "CAPITAL" => Some(Coordenadas(-25.2967, -57.6359, 12))
    case "CENTRAL" => Some(Coordenadas(-25.3637, -57.4259, 10))
    case "ALTO PARANÁ" => Some(Coordenadas(-25.5163, -54.6436, 9))
    case "ITAPÚA" => Some(Coordenadas(-26.8753, -55.9178, 9))
    case "CAAGUAZÚ" => Some(Coordenadas(-25.4669, -56.0175, 9))
    case "SAN PEDRO" => Some(Coordenadas(-24.0669, -57.0789, 9))
    case "CORDILLERA" => Some(Coordenadas(-25.3219, -56.8467, 9))
    case "GUAIRÁ" => Some(Coordenadas(-25.7833, -56.4500, 9))
    case "CAAZAPÁ" => Some(Coordenadas(-26.1978, -56.3711, 9))
    case "MISIONES" => Some(Coordenadas(-26.8833, -57.0833, 9))
    case "PARAGUARÍ" => Some(Coordenadas(-25.6319, -57.1456, 9))
    case "ALTO PARAGUAY" => Some(Coordenadas(-20.3167, -58.1833, 8))
    case "PDTE. HAYES" => Some(Coordenadas(-23.3500, -59.0500, 8))
    case "BOQUERON" => Some(Coordenadas(-22.6833, -60.4167, 8))
    case "AMAMBAY" => Some(Coordenadas(-22.5667, -56.0333, 9))
    case "CANINDEYÚ" => Some(Coordenadas(-24.1167, -55.1667, 9))
    case "CONCEPCIÓN" => Some(Coordenadas(-23.4167, -57.4333, 9))
    case "ÑEEMBUCÚ" => Some(Coordenadas(-26.9167, -58.2833, 9))
    case _ => None
  }

  /** `coordenadas_departamentos.get(departamento, <centre of Paraguay>)` */
  function CoordenadasDe(departamento: string): Coordenadas {
    TablaCoordenadas(departamento).GetOr(CentroParaguay)
  }

  /** Every marker lies inside Paraguay's bounding box, at zoom 6 to 12. */
  lemma CoordenadasEnParaguay(departamento: string)
    ensures var c := CoordenadasDe(departamento);
      -28.0 <= c.lat <= -19.0 && -63.0 <= c.lng <= -54.0 && 6 <= c.zoom <= 12
  {
  }

  /** Seven of the department names the cleaner produces, `ASUNCIÓN` among
      them, have no coordinates and are drawn at the centre of Paraguay; the
      other fifteen have their own. */
  lemma DepartamentosSinCoordenadas()
    ensures forall d :: d in DeptNames ==>
      (TablaCoordenadas(d).None? <==>
       d in {"VARIOS DEPARTAMENTOS", "CORONEL OVIEDO", "ITÁ", "ITAUGUÁ", "VILLARRICA",
             "ASUNCIÓN", "CAACUPÉ"})
    ensures CoordenadasDe(SinEspecificar) == CentroParaguay
  {
  }

  // ---------------------------------------------------------------------------
  // datos_tabla_view: one page of cleaned records

  /** One entry of `data`. The date is the record's own, which the cleaner
      leaves as it is. */
  datatype FilaTabla = FilaTabla(
    fecha: string, localidad: Value, distrito: Value, departamento: Value, evento: Value,
    kitA: Value, kitB: Value, totalAyudas: int)

  /** The JSON body of a page. */
  datatype Pagina = Pagina(data: seq<FilaTabla>, total: int, page: int, perPage: int, totalPages: int)

  /** Negative slice bounds make the query set refuse the slice; a zero
      `per_page` makes the page count divide by zero. */
  datatype ErrorPagina = IndiceNegativo | DivisionPorCero

  /** Python's `//`: the quotient rounded towards negative infinity. */
  function FloorDiv(a: int, b: int): (q: int)
    requires b != 0
    ensures b > 0 ==> b * q <= a < b * q + b
    ensures b < 0 ==> b * q + b < a <= b * q
  {
    if b > 0 || a % b == 0 then a / b else a / b - 1
  }

  /** `registros[i:j]` of a query set for non-negative bounds: the rows from
      `i` up to `j`, clipped to the table, none when `j <= i`. */
  function Rebanada<T>(s: seq<T>, i: int, j: int): (r: seq<T>)
    requires 0 <= i && 0 <= j
    ensures |r| == if j <= i || |s| <= i then 0 else (if j < |s| then j else |s|) - i
  {
    var a := if i < |s| then i else |s|;
    var b := if j < a then a else if j < |s| then j else |s|;
    s[a..b]
  }

  /** The columns of the table picked from a cleaned `dict`. */
  function Columnas(fecha: Date, limpio: Record): FilaTabla
    requires Localidad in limpio && Distrito in limpio && Departamento in limpio
    requires Evento in limpio && KitA in limpio && KitB in limpio
    requires ValidDate(fecha)
  {
    FilaTabla(IsoDate(fecha), limpio[Localidad], limpio[Distrito], limpio[Departamento],
              limpio[Evento], limpio[KitA], limpio[KitB], TotalAids(limpio))
  }

  /** A record as the table shows it: its `dict` cleaned by
      `limpiar_registro_completo`, and its own date. */
  function FilaDeTabla(a: Models.AsistenciaHumanitaria): FilaTabla {
    CleanRecordKeys(Models.Registro(a));
    Columnas(a.fecha, CleanRecord(Models.Registro(a)))
  }

  /** The rows of a slice are the rows of the records from its start on. */
  lemma FilasDeRebanada<T>(s: seq<T>, fila: T -> FilaTabla, i: int, j: int)
    requires 0 <= i && 0 <= j
    ensures var data := Aplicar(fila, Rebanada(s, i, j));
      forall k :: 0 <= k < |data| ==> data[k] == fila(s[i + k])
  {
    var trozo := Rebanada(s, i, j);
    forall k | 0 <= k < |trozo| ensures Aplicar(fila, trozo)[k] == fila(s[i + k]) {
      assert trozo[k] == s[i + k];
    }
  }

  /** The page `datos_tabla_view` answers, from the records in `-fecha` order,
      for any way `fila` of turning a record into a row. */
  function Paginar<T>(registros: seq<T>, fila: T -> FilaTabla, page: int, perPage: int)
    : Result<Pagina, ErrorPagina>
  {
    var start := (page - 1) * perPage;
    var end := start + perPage;
    if start < 0 || end < 0 then Failure(IndiceNegativo)
    else if perPage == 0 then Failure(DivisionPorCero)
    else
      Success(Pagina(Aplicar(fila, Rebanada(registros, start, end)),
                     |registros|, page, perPage, FloorDiv(|registros| + perPage - 1, perPage)))
  }

  /** The body of the row loop: clean the record's `dict` with
      `limpiar_registro_completo` and pick the columns of the table. */
  method FilaLimpia(registro: Models.AsistenciaHumanitaria) returns (fila: FilaTabla)
    ensures fila == FilaDeTabla(registro)
  {
    var limpio := LimpiarRegistroCompleto(Models.Registro(registro));
    CleanRecordKeys(Models.Registro(registro));
    fila := Columnas(registro.fecha, limpio);
  }

  /** The row loop of `datos_tabla_view`. */
  method FilasLimpias(trozo: seq<Models.AsistenciaHumanitaria>) returns (data: seq<FilaTabla>)
    ensures data == Aplicar(FilaDeTabla, trozo)
  {
    data := [];
    for i := 0 to |trozo|
      invariant data == Aplicar(FilaDeTabla, trozo[..i])
    {
      var fila := FilaLimpia(trozo[i]);
      AplicarUltimo(FilaDeTabla, trozo, i);
      data := data + [fila];
    }
    assert trozo[..|trozo|] == trozo;
  }

  /** `datos_tabla_view`: slice the records, clean each with
      `limpiar_registro_completo`, and report the page count. */
  method DatosTabla(registros: seq<Models.AsistenciaHumanitaria>, page: int, perPage: int)
    returns (r: Result<Pagina, ErrorPagina>)
    ensures r == Paginar(registros, FilaDeTabla, page, perPage)
  {
    var start := (page - 1) * perPage;
    var end := start + perPage;
    var total := |registros|;
    PaginarCasos(registros, FilaDeTabla, page, perPage, start);
    if start < 0 || end < 0 {
      return Failure(IndiceNegativo);
    }
    var data := FilasLimpias(Rebanada(registros, start, end));
    if perPage == 0 {
      return Failure(DivisionPorCero);
    }
    r := Success(Pagina(data, total, page, perPage, FloorDiv(total + perPage - 1, perPage)));
  }

  lemma CampoTexto(rec: Record, k: Field)
    requires k in rec && IsText(k)
    ensures CleanField(rec, k) == Str(LimpiarTexto(rec[k]))
  {
  }

  lemma CampoDepartamento(rec: Record)
    requires Departamento in rec
    ensures CleanField(rec, Departamento) == Str(LimpiarDepartamento(rec[Departamento]))
  {
  }

  lemma CampoAyuda(rec: Record, f: Field)
    requires f in rec && IsAid(f) && rec[f].Int?
    ensures CleanField(rec, f) == rec[f]
  {
  }

  /** The text columns of a `dict` that `limpiar_registro_completo` cleaned
      are the texts, the department and the event as their cleaners give
      them. */
  lemma ColumnasTextos(fecha: Date, rec: Record, limpio: Record)
    requires ValidDate(fecha)
    requires Localidad in rec && Distrito in rec && Departamento in rec && Evento in rec
    requires KitA in limpio && KitB in limpio
    requires Localidad in limpio && limpio[Localidad] == CleanField(rec, Localidad)
    requires Distrito in limpio && limpio[Distrito] == CleanField(rec, Distrito)
    requires Departamento in limpio && limpio[Departamento] == CleanField(rec, Departamento)
    requires Evento in limpio && limpio[Evento] == CleanField(rec, Evento)
    ensures var f := Columnas(fecha, limpio);
      f.localidad == Str(LimpiarTexto(rec[Localidad])) &&
      f.distrito == Str(LimpiarTexto(rec[Distrito])) &&
      f.departamento == Str(LimpiarDepartamento(rec[Departamento])) &&
      f.evento == Str(CleanEvento(rec))
  {
    CampoTexto(rec, Localidad);
    CampoTexto(rec, Distrito);
    CampoDepartamento(rec);
  }

  /** The aid columns of a `dict` of integers that `limpiar_registro_completo`
      cleaned are the stored counts, and so is their total. */
  lemma ColumnasAyudas(fecha: Date, rec: Record, limpio: Record)
    requires ValidDate(fecha)
    requires Localidad in limpio && Distrito in limpio && Departamento in limpio && Evento in limpio
    requires KitA in rec && KitB in rec && AidsAreInts(rec) && limpio.Keys == rec.Keys
    requires forall f :: f in rec && IsAid(f) ==> limpio[f] == CleanField(rec, f)
    ensures var f := Columnas(fecha, limpio);
      f.kitA == rec[KitA] && f.kitB == rec[KitB] && f.totalAyudas == TotalAids(rec)
  {
    AidFieldsAreAids();
    forall i | 0 <= i < |AidFields| ensures Aid(limpio, AidFields[i]) == Aid(rec, AidFields[i]) {
      var f := AidFields[i];
      if f in rec {
        CampoAyuda(rec, f);
      }
    }
    SumAidsFrame(limpio, rec, AidFields);
    CampoAyuda(rec, KitA);
    CampoAyuda(rec, KitB);
  }

  /** Each table row carries the record's cleaned texts, department and
      event, its own kit counts, its `total_ayudas`, and a date that reads
      back as its own. */
  lemma FilaDeTablaValores(a: Models.AsistenciaHumanitaria)
    ensures var f := FilaDeTabla(a);
      f.localidad == Str(LimpiarTexto(Str(a.localidad))) &&
      f.distrito == Str(LimpiarTexto(Str(a.distrito))) &&
      f.departamento == Str(LimpiarDepartamento(Str(a.departamento))) &&
      f.evento == Str(CleanEvento(Models.Registro(a))) &&
      f.kitA == Int(a.kitA) && f.kitB == Int(a.kitB) &&
      f.totalAyudas == Models.TotalAyudas(a) &&
      ParseIsoDate(f.fecha) == Some(a.fecha)
  {
    var rec := Models.Registro(a);
    Models.RegistroTextos(a);
    Models.RegistroAyudas(a);
    CleanRecordAll(rec);
    ColumnasTextos(a.fecha, rec, CleanRecord(rec));
    ColumnasAyudas(a.fecha, rec, CleanRecord(rec));
    Models.TotalAyudasEsSuma(a);
    IsoDateRoundTrip(a.fecha);
  }

  /** The requests that fail: `per_page = 0` always, and otherwise exactly
      those whose slice bounds come out negative. */
  lemma PaginacionErrores<T>(registros: seq<T>, fila: T -> FilaTabla, page: int, perPage: int)
    ensures Paginar(registros, fila, page, perPage).Failure? <==>
      perPage == 0 || (perPage > 0 && page < 1) || (perPage < 0 && page >= 1)
    ensures perPage == 0 ==> Paginar(registros, fila, page, perPage) == Failure(DivisionPorCero)
    ensures perPage > 0 && page < 1 ==> Paginar(registros, fila, page, perPage) == Failure(IndiceNegativo)
  {
    var start := (page - 1) * perPage;
    if perPage > 0 && page >= 1 {
      assert start >= 0;
    } else if perPage > 0 {
      assert start < 0;
    } else if perPage < 0 && page >= 1 {
      assert start + perPage == page * perPage;
      assert page * perPage < 0;
    } else if perPage < 0 {
      assert start >= 0;
      assert start + perPage == page * perPage;
      assert page * perPage >= 0;
    }
  }

  /** `total_pages` is the number of pages of `per_page` records the table
      fills: none for an empty table, and otherwise enough pages for every
      record with the last one not empty. */
  lemma PaginasTotales(n: int, perPage: int)
    requires n >= 0 && perPage > 0
    ensures var tp := FloorDiv(n + perPage - 1, perPage);
      (n == 0 <==> tp == 0) && (n > 0 ==> (tp - 1) * perPage < n <= tp * perPage)
  {
    var tp := FloorDiv(n + perPage - 1, perPage);
    if n == 0 {
      assert perPage * tp <= perPage - 1 < perPage * tp + perPage;
      assert tp == 0;
    }
  }

  /** `Paginar` by cases on the slice bounds and `per_page`. */
  lemma PaginarCasos<T>(registros: seq<T>, fila: T -> FilaTabla, page: int, perPage: int, start: int)
    requires start == (page - 1) * perPage
    ensures start < 0 || start + perPage < 0 ==>
      Paginar(registros, fila, page, perPage) == Failure(IndiceNegativo)
    ensures start >= 0 && start + perPage >= 0 && perPage == 0 ==>
      Paginar(registros, fila, page, perPage) == Failure(DivisionPorCero)
    ensures start >= 0 && start + perPage >= 0 && perPage != 0 ==>
      Paginar(registros, fila, page, perPage) ==
      Success(Pagina(Aplicar(fila, Rebanada(registros, start, start + perPage)),
                     |registros|, page, perPage, FloorDiv(|registros| + perPage - 1, perPage)))
  {
  }

  /** The page of a valid request is the slice from its start on. */
  lemma PaginaDesde<T>(registros: seq<T>, fila: T -> FilaTabla, page: int, perPage: int, start: int)
    requires page >= 1 && perPage > 0 && start == (page - 1) * perPage
    ensures start >= 0
    ensures Paginar(registros, fila, page, perPage) ==
      Success(Pagina(Aplicar(fila, Rebanada(registros, start, start + perPage)),
                     |registros|, page, perPage, FloorDiv(|registros| + perPage - 1, perPage)))
  {
    ProductoNoNegativo(page - 1, perPage);
    PaginarCasos(registros, fila, page, perPage, start);
  }

  lemma ProductoNoNegativo(a: int, b: int)
    requires a >= 0 && b >= 0
    ensures a * b >= 0
  {
  }

  /** A page of a valid request holds the next `per_page` records from
      `(page - 1) * per_page` on, turned into rows, and no more. */
  lemma PaginaValida<T>(registros: seq<T>, fila: T -> FilaTabla, page: int, perPage: int)
    requires page >= 1 && perPage > 0
    ensures var r := Paginar(registros, fila, page, perPage);
      var start := (page - 1) * perPage;
      r.Success? && r.value.total == |registros| &&
      r.value.totalPages == FloorDiv(|registros| + perPage - 1, perPage) &&
      |r.value.data| == (if |registros| <= start then 0
                         else if |registros| - start < perPage then |registros| - start else perPage) &&
      (forall k :: 0 <= k < |r.value.data| ==> r.value.data[k] == fila(registros[start + k]))
  {
    var start := (page - 1) * perPage;
    PaginaDesde(registros, fila, page, perPage, start);
    FilasDeRebanada(registros, fila, start, start + perPage);
  }

  /** Every record is on exactly one page: record `i` is entry
      `i % per_page` of page `i / per_page + 1`, which is at most
      `total_pages`. */
  lemma PaginasCubren<T>(registros: seq<T>, fila: T -> FilaTabla, perPage: int, i: int)
    requires perPage > 0 && 0 <= i < |registros|
    ensures var page := i / perPage + 1;
      var r := Paginar(registros, fila, page, perPage);
      r.Success? && 1 <= page <= r.value.totalPages &&
      i % perPage < |r.value.data| && r.value.data[i % perPage] == fila(registros[i])
  {
    var q, m := i / perPage, i % perPage;
    PaginaDesde(registros, fila, q + 1, perPage, i - m);
    FilasDeRebanada(registros, fila, i - m, i - m + perPage);
    PaginasTotales(|registros|, perPage);
    CocienteMenor(i, |registros|, perPage, FloorDiv(|registros| + perPage - 1, perPage));
  }

  /** A record before `tp` pages' worth is on one of the first `tp` pages. */
  lemma CocienteMenor(i: int, n: int, perPage: int, tp: int)
    requires 0 <= i < n && perPage > 0 && n <= tp * perPage
    ensures i / perPage < tp
  {
    MenorPorFactor(i / perPage, tp, perPage);
  }

  lemma MenorPorFactor(a: int, b: int, c: int)
    requires c > 0 && a * c < b * c
    ensures a < b
  {
  }

  /** A negative `per_page` with a page of 0 or less is answered, with no
      rows: both slice bounds come out non-negative and the slice is empty. */
  lemma PaginaNegativaVacia<T>(registros: seq<T>, fila: T -> FilaTabla, page: int, perPage: int)
    requires perPage < 0 && page <= 0
    ensures Paginar(registros, fila, page, perPage).Success?
    ensures Paginar(registros, fila, page, perPage).value.data == []
  {
    PaginacionErrores(registros, fila, page, perPage);
    assert (page - 1) * perPage + perPage == page * perPage;
  }
}
