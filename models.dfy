/** The `AsistenciaHumanitaria` model: one delivery of humanitarian aid, its
    text form, its aid total and the table-wide statistics the dashboard
    reads. */
module Models {
  import opened Wrappers
  import opened PyValues
  import opened Fields
  import opened DataCleaner
  import opened Secuencias

  /** A `DateField` value: a valid calendar date. */
  type Fecha = d: Date | ValidDate(d) witness Date(2000, 1, 1)

  datatype AsistenciaHumanitaria = AsistenciaHumanitaria(
    fecha: Fecha, localidad: string, distrito: string, departamento: string, evento: string,
    kitB: int, kitA: int, chapaFibrocemento: int, chapaZinc: int, colchones: int,
    frazadas: int, terciadas: int, puntales: int, carpasPlasticas: int)

  /** A new record: the aid fields take their default, 0, so its total is 0. */
  function Nuevo(fecha: Fecha, localidad: string, distrito: string, departamento: string,
                 evento: string): (a: AsistenciaHumanitaria)
    ensures a.fecha == fecha && a.localidad == localidad && a.distrito == distrito
    ensures a.departamento == departamento && a.evento == evento
    ensures forall i :: 0 <= i < 9 ==> Ayudas(a)[i] == 0
    ensures TotalAyudas(a) == 0
  {
    AsistenciaHumanitaria(fecha, localidad, distrito, departamento, evento, 0, 0, 0, 0, 0, 0, 0, 0, 0)
  }

  /** The nine aid quantities in `aid_fields` order. */
  function Ayudas(a: AsistenciaHumanitaria): (r: seq<int>)
    ensures |r| == 9
  {
    [a.kitB, a.kitA, a.chapaFibrocemento, a.chapaZinc, a.colchones,
     a.frazadas, a.terciadas, a.puntales, a.carpasPlasticas]
  }

  /** `__str__`: the locality, a spaced hyphen and the ISO date. */
  function Texto(a: AsistenciaHumanitaria): (s: string)
    ensures |s| == |a.localidad| + 13
    ensures s[..|a.localidad|] == a.localidad
    ensures s[|a.localidad|..|a.localidad| + 3] == " - "
    ensures ParseIsoDate(s[|a.localidad| + 3..]) == Some(a.fecha)
  {
    IsoDateRoundTrip(a.fecha);
    var s := a.localidad + " - " + IsoDate(a.fecha);
    assert s[|a.localidad| + 3..] == IsoDate(a.fecha);
    s
  }

  /** The `total_ayudas` property. */
  function TotalAyudas(a: AsistenciaHumanitaria): int {
    a.kitB + a.kitA + a.chapaFibrocemento + a.chapaZinc + a.colchones +
    a.frazadas + a.terciadas + a.puntales + a.carpasPlasticas
  }

  /** A record as the `dict` of `values()`. */
  function Registro(a: AsistenciaHumanitaria): Record {
    RecordOf(a.departamento, a.distrito, a.localidad, a.evento, Ayudas(a))
  }

  /** The text fields of the `dict`, as stored. */
  lemma RegistroTextos(a: AsistenciaHumanitaria)
    ensures var r := Registro(a);
      Fields.Localidad in r && r[Fields.Localidad] == Str(a.localidad) &&
      Fields.Distrito in r && r[Fields.Distrito] == Str(a.distrito) &&
      Fields.Departamento in r && r[Fields.Departamento] == Str(a.departamento) &&
      Fields.Evento in r && r[Fields.Evento] == Str(a.evento)
  {
  }

  /** The aid fields of the `dict` hold the stored integers. */
  lemma RegistroAyudas(a: AsistenciaHumanitaria)
    ensures AidsAreInts(Registro(a))
    ensures KitA in Registro(a) && Registro(a)[KitA] == Int(a.kitA)
    ensures KitB in Registro(a) && Registro(a)[KitB] == Int(a.kitB)
  {
  }

  /** `total_ayudas` adds up every aid field, the same total the cleaner
      computes on the record's `dict`. */
  lemma TotalAyudasEsSuma(a: AsistenciaHumanitaria)
    ensures TotalAyudas(a) == Suma(Ayudas(a))
    ensures TotalAyudas(a) == TotalAids(Registro(a))
  {
    var r := Registro(a);
    var s := Ayudas(a);
    SumAidsOfRecord(a.departamento, a.distrito, a.localidad, a.evento, s, 9);
    assert AidFields[..9] == AidFields && s[..9] == s;
    assert Suma(s[..1]) == s[0] by { assert s[..1][..0] == []; }
    assert Suma(s[..2]) == Suma(s[..1]) + s[1] by { assert s[..2][..1] == s[..1]; }
    assert Suma(s[..3]) == Suma(s[..2]) + s[2] by { assert s[..3][..2] == s[..2]; }
    assert Suma(s[..4]) == Suma(s[..3]) + s[3] by { assert s[..4][..3] == s[..3]; }
    assert Suma(s[..5]) == Suma(s[..4]) + s[4] by { assert s[..5][..4] == s[..4]; }
    assert Suma(s[..6]) == Suma(s[..5]) + s[5] by { assert s[..6][..5] == s[..5]; }
    assert Suma(s[..7]) == Suma(s[..6]) + s[6] by { assert s[..7][..6] == s[..6]; }
    assert Suma(s[..8]) == Suma(s[..7]) + s[7] by { assert s[..8][..7] == s[..7]; }
    assert Suma(s) == Suma(s[..8]) + s[8] by { assert s[..8] == s[..|s| - 1]; }
  }

  // ---------------------------------------------------------------------------
  // obtener_estadisticas_generales

  /** The row of `aggregate(...)`: SQL's `SUM`, `MIN` and `MAX` over no rows
      are `NULL`, and so is any sum with a `NULL` term. */
  datatype Estadisticas = Estadisticas(
    totalRegistros: nat,
    fechaInicio: Option<Date>, fechaFin: Option<Date>,
    totalKitA: Option<int>, totalKitB: Option<int>, totalAyudas: Option<int>)

  /** The calendar order of dates. */
  predicate AntesOIgual(d: Date, e: Date) {
    d.year < e.year || (d.year == e.year && (d.month < e.month || (d.month == e.month && d.day <= e.day)))
  }

  /** `Min('fecha')` */
  function MinFecha(rs: seq<AsistenciaHumanitaria>): Option<Date> {
    if rs == [] then None
    else
      var d := rs[|rs| - 1].fecha;
      match MinFecha(rs[..|rs| - 1])
      case None => Some(d)
      case Some(m) => if AntesOIgual(m, d) then Some(m) else Some(d)
  }

  /** `Max('fecha')` */
  function MaxFecha(rs: seq<AsistenciaHumanitaria>): Option<Date> {
    if rs == [] then None
    else
      var d := rs[|rs| - 1].fecha;
      match MaxFecha(rs[..|rs| - 1])
      case None => Some(d)
      case Some(m) => if AntesOIgual(d, m) then Some(m) else Some(d)
  }

  /** The `j`-th aid column of the table. */
  function Columna(rs: seq<AsistenciaHumanitaria>, j: nat): seq<int>
    requires j < 9
  {
    seq(|rs|, i requires 0 <= i < |rs| => Ayudas(rs[i])[j])
  }

  /** `Sum(...)` of the `j`-th aid column, `NULL` over no rows. */
  function SumCol(rs: seq<AsistenciaHumanitaria>, j: nat): Option<int>
    requires j < 9
  {
    if rs == [] then None else Some(Suma(Columna(rs, j)))
  }

  /** `a + b` in SQL: `NULL` when either side is. */
  function SqlMas(a: Option<int>, b: Option<int>): Option<int> {
    if a.Some? && b.Some? then Some(a.value + b.value) else None
  }

  /** `obtener_estadisticas_generales`: one aggregate query over the table. */
  function ObtenerEstadisticas(rs: seq<AsistenciaHumanitaria>): Estadisticas {
    Estadisticas(
      |rs|, MinFecha(rs), MaxFecha(rs), SumCol(rs, 1), SumCol(rs, 0),
      SqlMas(SqlMas(SqlMas(SqlMas(SqlMas(SqlMas(SqlMas(SqlMas(
        SumCol(rs, 1), SumCol(rs, 0)), SumCol(rs, 2)), SumCol(rs, 3)), SumCol(rs, 4)),
        SumCol(rs, 5)), SumCol(rs, 6)), SumCol(rs, 7)), SumCol(rs, 8)))
  }

  /** `verificar_datos_disponibles` */
  function HayDatos(rs: seq<AsistenciaHumanitaria>): bool {
    |rs| > 0
  }

  /** The totals of `total_ayudas`, one per record. */
  function Totales(rs: seq<AsistenciaHumanitaria>): seq<int> {
    seq(|rs|, i requires 0 <= i < |rs| => TotalAyudas(rs[i]))
  }

  /** Over no rows every aggregate but the count is `NULL`; over some rows
      none is. */
  lemma EstadisticasVacias(rs: seq<AsistenciaHumanitaria>)
    ensures var e := ObtenerEstadisticas(rs);
            (HayDatos(rs) <==> e.totalRegistros > 0) &&
            (HayDatos(rs) <==> e.totalAyudas.Some?) &&
            (HayDatos(rs) <==> e.fechaInicio.Some? && e.fechaFin.Some?) &&
            (HayDatos(rs) <==> e.totalKitA.Some? && e.totalKitB.Some?)
  {
  }

  lemma {:induction false} SumaUltimo(rs: seq<AsistenciaHumanitaria>, j: nat)
    requires rs != [] && j < 9
    ensures Suma(Columna(rs, j)) == Suma(Columna(rs[..|rs| - 1], j)) + Ayudas(rs[|rs| - 1])[j]
  {
    assert Columna(rs, j)[..|rs| - 1] == Columna(rs[..|rs| - 1], j);
  }

  /** Summing each column and adding the sums gives the sum of the records'
      `total_ayudas`. */
  lemma {:induction false} SumaDeColumnas(rs: seq<AsistenciaHumanitaria>)
    ensures Suma(Totales(rs)) ==
      Suma(Columna(rs, 1)) + Suma(Columna(rs, 0)) + Suma(Columna(rs, 2)) +
      Suma(Columna(rs, 3)) + Suma(Columna(rs, 4)) + Suma(Columna(rs, 5)) +
      Suma(Columna(rs, 6)) + Suma(Columna(rs, 7)) + Suma(Columna(rs, 8))
  {
    if rs != [] {
      var n := |rs| - 1;
      SumaDeColumnas(rs[..n]);
      assert Totales(rs)[..n] == Totales(rs[..n]);
      SumaUltimo(rs, 0); SumaUltimo(rs, 1); SumaUltimo(rs, 2);
      SumaUltimo(rs, 3); SumaUltimo(rs, 4); SumaUltimo(rs, 5);
      SumaUltimo(rs, 6); SumaUltimo(rs, 7); SumaUltimo(rs, 8);
    }
  }

  /** The aggregate `total_ayudas` is the sum of the records' `total_ayudas`. */
  lemma TotalAgregado(rs: seq<AsistenciaHumanitaria>)
    requires rs != []
    ensures ObtenerEstadisticas(rs).totalAyudas == Some(Suma(Totales(rs)))
  {
    SumaDeColumnas(rs);
  }

  lemma AntesOIgualOrdenTotal(d: Date, e: Date, f: Date)
    ensures AntesOIgual(d, e) || AntesOIgual(e, d)
    ensures AntesOIgual(d, e) && AntesOIgual(e, f) ==> AntesOIgual(d, f)
  {
  }

  /** `fecha_inicio` is the date of some record and no record is earlier. */
  lemma {:induction false} MinFechaEsMinimo(rs: seq<AsistenciaHumanitaria>)
    requires rs != []
    ensures MinFecha(rs).Some?
    ensures exists i :: 0 <= i < |rs| && rs[i].fecha == MinFecha(rs).value
    ensures forall i :: 0 <= i < |rs| ==> AntesOIgual(MinFecha(rs).value, rs[i].fecha)
  {
    var n := |rs| - 1;
    if n > 0 {
      MinFechaEsMinimo(rs[..n]);
      var m := MinFecha(rs[..n]).value;
      var k :| 0 <= k < n && rs[..n][k].fecha == m;
      assert rs[k].fecha == m;
      forall i | 0 <= i < |rs| ensures AntesOIgual(MinFecha(rs).value, rs[i].fecha) {
        if i < n {
          assert rs[..n][i] == rs[i];
          AntesOIgualOrdenTotal(rs[n].fecha, m, rs[i].fecha);
        } else {
          AntesOIgualOrdenTotal(m, rs[n].fecha, rs[n].fecha);
        }
      }
    }
  }

  /** `fecha_fin` is the date of some record and no record is later. */
  lemma {:induction false} MaxFechaEsMaximo(rs: seq<AsistenciaHumanitaria>)
    requires rs != []
    ensures MaxFecha(rs).Some?
    ensures exists i :: 0 <= i < |rs| && rs[i].fecha == MaxFecha(rs).value
    ensures forall i :: 0 <= i < |rs| ==> AntesOIgual(rs[i].fecha, MaxFecha(rs).value)
  {
    var n := |rs| - 1;
    if n > 0 {
      MaxFechaEsMaximo(rs[..n]);
      var m := MaxFecha(rs[..n]).value;
      var k :| 0 <= k < n && rs[..n][k].fecha == m;
      assert rs[k].fecha == m;
      forall i | 0 <= i < |rs| ensures AntesOIgual(rs[i].fecha, MaxFecha(rs).value) {
        if i < n {
          assert rs[..n][i] == rs[i];
          AntesOIgualOrdenTotal(rs[i].fecha, m, rs[n].fecha);
        } else {
          AntesOIgualOrdenTotal(rs[n].fecha, m, rs[n].fecha);
        }
      }
    }
  }
}
