/** The batch command `limpiar_datos`: it loads every record into a DataFrame,
    rewrites its columns one cleaning step after another (aid quantities,
    department, event, the `SIN EVENTO` reclassification, deletion of the
    `SIN EVENTO` rows without aid, locality and district) and saves the
    remaining rows back.

    The frame is a sequence of rows and each step is a pass over it. What the
    command does to the database is the sequence of ids it deletes and the
    sequence of rows it saves. The command's ruleset is its own: its
    sentinels, its reclassification and its deletion rule differ from
    `DataCleaner`'s, as the comparison lemmas at the end show. */
module LimpiarDatos {
  import opened Wrappers
  import opened Text
  import opened PyValues
  import opened Tables
  import opened Fields
  import opened DataCleaner
  import opened Secuencias

  const SinDepartamento: string := "SIN_DEPARTAMENTO"
  const SinEventoMarca: string := "SIN_EVENTO"

  /** The nine aid quantities of a row, in `ayudas_cols` order. */
  type Ayudas = s: seq<int> | |s| == 9 witness [0, 0, 0, 0, 0, 0, 0, 0, 0]

  const ColChapaFibrocemento: nat := 2
  const ColChapaZinc: nat := 3

  /** A row of the frame: the id, the four text columns and the aid columns
      of one `AsistenciaHumanitaria` record, whose columns are text and
      integer columns. */
  datatype Fila = Fila(
    id: int, departamento: string, distrito: string, localidad: string, evento: string,
    ayudas: Ayudas)

  // ---------------------------------------------------------------------------
  // The per-row rules of each step

  /** `.astype(str).str.strip().str.upper()` */
  function StrUpper(s: string): string {
    Upper(Strip(s))
  }

  /** The strings the command replaces by its sentinel: `'NAN'`, `'NONE'`, `''`. */
  predicate NullLike(s: string) {
    s == "NAN" || s == "NONE" || s == ""
  }

  /** The department step: the upper-cased text, the sentinel for the null-like
      ones, then whole-value replacement through the department table. */
  function DepartamentoEstandar(s: string): string {
    var u := StrUpper(s);
    var t := if NullLike(u) then SinDepartamento else u;
    DeptAlias(t).GetOr(t)
  }

  /** The event step: the upper-cased text, `SIN_EVENTO` for the null-like
      ones, the stripped part before the first hyphen, then replacement through
      the event table. */
  function EventoEstandar(s: string): string {
    EventoTraducido(EventoRecortado(EventoMarcado(s)))
  }

  function EventoMarcado(s: string): string {
    var u := StrUpper(s);
    if NullLike(u) then SinEventoMarca else u
  }

  /** `.str.split('-').str[0].str.strip()` */
  function EventoRecortado(t: string): string {
    Strip(BeforeHyphen(t))
  }

  function EventoTraducido(k: string): string {
    EventAlias(k).GetOr(k)
  }

  /** The aid, department and event steps on one row. The aid columns are
      integer columns, which `to_numeric(...).fillna(0)` leaves as they are. */
  function Estandarizada(f: Fila): Fila {
    f.(departamento := DepartamentoEstandar(f.departamento), evento := EventoEstandar(f.evento))
  }

  /** The three masked overwrites, each under the mask `cond` computed once
      before the first of them. */
  function Mascara1(f: Fila, cond: bool): Fila {
    if cond && f.ayudas[ColChapaFibrocemento] > 0 then f.(evento := Inundacion) else f
  }

  function Mascara2(f: Fila, cond: bool): Fila {
    if cond && f.ayudas[ColChapaZinc] > 0 then f.(evento := Temporal) else f
  }

  function Mascara3(f: Fila, cond: bool): Fila {
    if cond && Suma(f.ayudas) > 0 then f.(evento := Asistencia) else f
  }

  /** The reclassification of one row: the mask is `SIN EVENTO` in any letter
      case or padding, and the three overwrites apply in order, so that a later
      one wins over an earlier one. */
  function Reclasificada(f: Fila): Fila {
    var cond := IsSinEvento(f.evento);
    Mascara3(Mascara2(Mascara1(f, cond), cond), cond)
  }

  /** The deletion rule, on a row of the database: after the event step it is
      `SIN EVENTO` and its aid quantities add up to zero. */
  predicate Borrable(f: Fila) {
    var e := Estandarizada(f);
    IsSinEvento(e.evento) && Suma(e.ayudas) == 0
  }

  /** The locality and district step: strip and title-case the text, then
      replace `'Nan'`, `'None'` and `''` by `'Sin Especificar'`. */
  function TextoEstandar(s: string): string {
    var t := Title(Strip(s));
    if t == "Nan" || t == "None" || t == "" then SinEspecificarTexto else t
  }

  function Textos(f: Fila): Fila {
    f.(distrito := TextoEstandar(f.distrito), localidad := TextoEstandar(f.localidad))
  }

  /** What the command saves for a row it keeps. The save loop's `int()`
      leaves the integer aid columns as they are. */
  function Final(f: Fila): Fila {
    Textos(Reclasificada(Estandarizada(f)))
  }

  // ---------------------------------------------------------------------------
  // The command over a whole table

  /** The ids of the rows that satisfy `p`, in frame order. */
  function IdsDonde(p: Fila -> bool, df: seq<Fila>): seq<int> {
    if df == [] then []
    else
      var n := |df| - 1;
      IdsDonde(p, df[..n]) + if p(df[n]) then [df[n].id] else []
  }

  /** The rows that do not satisfy `p`, in frame order. */
  function Excepto(p: Fila -> bool, df: seq<Fila>): seq<Fila> {
    if df == [] then []
    else
      var n := |df| - 1;
      Excepto(p, df[..n]) + if p(df[n]) then [] else [df[n]]
  }

  /** `df[~df['id'].isin(ids)]` */
  function Quitar(df: seq<Fila>, ids: seq<int>): seq<Fila> {
    if df == [] then []
    else
      var n := |df| - 1;
      Quitar(df[..n], ids) + if df[n].id in ids then [] else [df[n]]
  }

  /** The ids of the rows the mask and the zero sum select. */
  function Marcados(df: seq<Fila>, cond: seq<bool>): seq<int>
    requires |cond| == |df|
  {
    if df == [] then []
    else
      var n := |df| - 1;
      Marcados(df[..n], cond[..n]) + if cond[n] && Suma(df[n].ayudas) == 0 then [df[n].id] else []
  }

  /** The ids the command deletes: those of the rows the deletion rule selects. */
  function Eliminados(filas: seq<Fila>): seq<int> {
    IdsDonde(Borrable, filas)
  }

  /** Database ids are primary keys. */
  predicate IdsDistintos(df: seq<Fila>) {
    forall i, j :: 0 <= i < j < |df| ==> df[i].id != df[j].id
  }

  // ---------------------------------------------------------------------------
  // The passes

  /** The department and event steps, each a pass over the frame. */
  method Estandarizar(filas: seq<Fila>) returns (df: seq<Fila>)
    ensures |df| == |filas|
    ensures forall i :: 0 <= i < |filas| ==> df[i] == Estandarizada(filas[i])
  {
    var d := EstandarizarDepartamentos(filas);
    df := EstandarizarEventos(d);
  }

  /** The department step over the frame. */
  method EstandarizarDepartamentos(filas: seq<Fila>) returns (df: seq<Fila>)
    ensures |df| == |filas|
    ensures forall i :: 0 <= i < |filas| ==>
      df[i] == filas[i].(departamento := DepartamentoEstandar(filas[i].departamento))
  {
    df := [];
    for i := 0 to |filas|
      invariant |df| == i
      invariant forall k :: 0 <= k < i ==>
        df[k] == filas[k].(departamento := DepartamentoEstandar(filas[k].departamento))
    {
      df := df + [filas[i].(departamento := DepartamentoEstandar(filas[i].departamento))];
    }
  }

  /** The event step over the frame: three passes, as the column is rewritten three times. */
  method EstandarizarEventos(filas: seq<Fila>) returns (df: seq<Fila>)
    ensures |df| == |filas|
    ensures forall i :: 0 <= i < |filas| ==> df[i] == filas[i].(evento := EventoEstandar(filas[i].evento))
  {
    var marcados := MarcarEventos(filas);
    var recortados := RecortarEventos(marcados);
    df := TraducirEventos(recortados);
  }

  method MarcarEventos(filas: seq<Fila>) returns (df: seq<Fila>)
    ensures |df| == |filas|
    ensures forall i :: 0 <= i < |filas| ==> df[i] == filas[i].(evento := EventoMarcado(filas[i].evento))
  {
    df := [];
    for i := 0 to |filas|
      invariant |df| == i
      invariant forall k :: 0 <= k < i ==> df[k] == filas[k].(evento := EventoMarcado(filas[k].evento))
    {
      df := df + [filas[i].(evento := EventoMarcado(filas[i].evento))];
    }
  }

  method RecortarEventos(filas: seq<Fila>) returns (df: seq<Fila>)
    ensures |df| == |filas|
    ensures forall i :: 0 <= i < |filas| ==> df[i] == filas[i].(evento := EventoRecortado(filas[i].evento))
  {
    df := [];
    for i := 0 to |filas|
      invariant |df| == i
      invariant forall k :: 0 <= k < i ==> df[k] == filas[k].(evento := EventoRecortado(filas[k].evento))
    {
      df := df + [filas[i].(evento := EventoRecortado(filas[i].evento))];
    }
  }

  method TraducirEventos(filas: seq<Fila>) returns (df: seq<Fila>)
    ensures |df| == |filas|
    ensures forall i :: 0 <= i < |filas| ==> df[i] == filas[i].(evento := EventoTraducido(filas[i].evento))
  {
    df := [];
    for i := 0 to |filas|
      invariant |df| == i
      invariant forall k :: 0 <= k < i ==> df[k] == filas[k].(evento := EventoTraducido(filas[k].evento))
    {
      df := df + [filas[i].(evento := EventoTraducido(filas[i].evento))];
    }
  }

  /** The mask, computed once, and the three masked overwrites in order. */
  method Reclasificar(df: seq<Fila>) returns (r: seq<Fila>, cond: seq<bool>)
    ensures |r| == |df| && |cond| == |df|
    ensures forall i :: 0 <= i < |df| ==>
      cond[i] == IsSinEvento(df[i].evento) && r[i] == Reclasificada(df[i])
  {
    cond := seq(|df|, i requires 0 <= i < |df| => IsSinEvento(df[i].evento));
    var r1 := Sobrescribir1(df, cond);
    var r2 := Sobrescribir2(r1, cond);
    r := Sobrescribir3(r2, cond);
  }

  /** `df.loc[cond & (df['CHAPA_FIBROCEMENTO'] > 0), 'EVENTO'] = 'INUNDACION'` */
  method Sobrescribir1(df: seq<Fila>, cond: seq<bool>) returns (r: seq<Fila>)
    requires |cond| == |df|
    ensures |r| == |df|
    ensures forall i :: 0 <= i < |df| ==> r[i] == Mascara1(df[i], cond[i])
  {
    r := df;
    var i := 0;
    while i < |r|
      invariant 0 <= i <= |r| == |df|
      invariant forall k :: 0 <= k < i ==> r[k] == Mascara1(df[k], cond[k])
      invariant forall k :: i <= k < |r| ==> r[k] == df[k]
    {
      if cond[i] && r[i].ayudas[ColChapaFibrocemento] > 0 {
        r := r[i := r[i].(evento := Inundacion)];
      }
      i := i + 1;
    }
  }

  /** `df.loc[cond & (df['CHAPA_ZINC'] > 0), 'EVENTO'] = 'TEMPORAL'` */
  method Sobrescribir2(df: seq<Fila>, cond: seq<bool>) returns (r: seq<Fila>)
    requires |cond| == |df|
    ensures |r| == |df|
    ensures forall i :: 0 <= i < |df| ==> r[i] == Mascara2(df[i], cond[i])
  {
    r := df;
    var i := 0;
    while i < |r|
      invariant 0 <= i <= |r| == |df|
      invariant forall k :: 0 <= k < i ==> r[k] == Mascara2(df[k], cond[k])
      invariant forall k :: i <= k < |r| ==> r[k] == df[k]
    {
      if cond[i] && r[i].ayudas[ColChapaZinc] > 0 {
        r := r[i := r[i].(evento := Temporal)];
      }
      i := i + 1;
    }
  }

  /** `df.loc[cond & (df[ayudas_cols].sum(axis=1) > 0), 'EVENTO'] = 'ASISTENCIA'` */
  method Sobrescribir3(df: seq<Fila>, cond: seq<bool>) returns (r: seq<Fila>)
    requires |cond| == |df|
    ensures |r| == |df|
    ensures forall i :: 0 <= i < |df| ==> r[i] == Mascara3(df[i], cond[i])
  {
    r := df;
    var i := 0;
    while i < |r|
      invariant 0 <= i <= |r| == |df|
      invariant forall k :: 0 <= k < i ==> r[k] == Mascara3(df[k], cond[k])
      invariant forall k :: i <= k < |r| ==> r[k] == df[k]
    {
      if cond[i] && Suma(r[i].ayudas) > 0 {
        r := r[i := r[i].(evento := Asistencia)];
      }
      i := i + 1;
    }
  }

  /** `registros_a_eliminar['id']` */
  method FilasAEliminar(df: seq<Fila>, cond: seq<bool>) returns (ids: seq<int>)
    requires |cond| == |df|
    ensures ids == Marcados(df, cond)
  {
    ids := [];
    var i := 0;
    while i < |df|
      invariant 0 <= i <= |df|
      invariant ids == Marcados(df[..i], cond[..i])
    {
      assert df[..i + 1][..i] == df[..i] && cond[..i + 1][..i] == cond[..i];
      if cond[i] && Suma(df[i].ayudas) == 0 {
        ids := ids + [df[i].id];
      }
      i := i + 1;
    }
    assert df[..i] == df && cond[..i] == cond;
  }

  /** The frame without the deleted rows. */
  method QuitarFilas(df: seq<Fila>, ids: seq<int>) returns (r: seq<Fila>)
    ensures r == Quitar(df, ids)
  {
    r := [];
    var i := 0;
    while i < |df|
      invariant 0 <= i <= |df|
      invariant r == Quitar(df[..i], ids)
    {
      assert df[..i + 1][..i] == df[..i];
      if df[i].id !in ids {
        r := r + [df[i]];
      }
      i := i + 1;
    }
    assert df[..i] == df;
  }

  /** The locality and district step, row by row. */
  method LimpiarLocalidades(df: seq<Fila>) returns (r: seq<Fila>)
    ensures r == Aplicar(Textos, df)
  {
    r := [];
    var i := 0;
    while i < |df|
      invariant 0 <= i <= |df| && |r| == i
      invariant forall k :: 0 <= k < i ==> r[k] == Textos(df[k])
    {
      var f := df[i];
      r := r + [f.(distrito := TextoEstandar(f.distrito), localidad := TextoEstandar(f.localidad))];
      i := i + 1;
    }
  }

  /** `handle`, with `dry_run` as a parameter: the ids it deletes and the rows
      it saves, one save per remaining row. A dry run deletes and saves
      nothing; otherwise the rows the deletion rule selects are deleted and
      every row whose id was not deleted is saved cleaned. */
  method Handle(filas: seq<Fila>, dryRun: bool) returns (eliminados: seq<int>, guardados: seq<Fila>)
    ensures eliminados == if dryRun then [] else Eliminados(filas)
    ensures guardados == if dryRun then [] else Aplicar(Final, Quitar(filas, Eliminados(filas)))
  {
    eliminados := [];
    guardados := [];
    if |filas| == 0 {
      return;
    }
    var df := Estandarizar(filas);
    var reclasificadas, cond := Reclasificar(df);
    var aEliminar := FilasAEliminar(reclasificadas, cond);
    EliminadosPorPasos(filas, reclasificadas, cond);
    var restantes := reclasificadas;
    if !dryRun && |aEliminar| > 0 {
      eliminados := aEliminar;
      restantes := QuitarFilas(reclasificadas, aEliminar);
    }
    var limpias := LimpiarLocalidades(restantes);
    if !dryRun {
      if |aEliminar| == 0 {
        QuitarNada(reclasificadas);
      }
      GuardadosPorPasos(filas, reclasificadas, aEliminar);
      guardados := limpias;
    }
  }

  // ---------------------------------------------------------------------------
  // From the passes to the rows

  /** The deletion rule on a row after the event step. */
  predicate SinEventoNiAyuda(r: Fila) {
    IsSinEvento(r.evento) && Suma(r.ayudas) == 0
  }

  /** The steps before the deletion keep ids and aid quantities, and the
      deletion rule reads the row after the event step. */
  lemma PasosConservanIds()
    ensures forall f :: Estandarizada(f).id == f.id && Estandarizada(f).ayudas == f.ayudas
    ensures forall f :: Reclasificada(f).id == f.id && Reclasificada(f).ayudas == f.ayudas
    ensures forall f :: Borrable(f) == SinEventoNiAyuda(Estandarizada(f))
  {
  }

  /** The ids the passes select are the ids of the rows the deletion rule selects. */
  lemma EliminadosPorPasos(filas: seq<Fila>, reclasificadas: seq<Fila>, cond: seq<bool>)
    requires |reclasificadas| == |filas| && |cond| == |filas|
    requires forall i :: 0 <= i < |filas| ==>
      cond[i] == IsSinEvento(Estandarizada(filas[i]).evento) &&
      reclasificadas[i] == Reclasificada(Estandarizada(filas[i]))
    ensures Marcados(reclasificadas, cond) == Eliminados(filas)
  {
    var e := Aplicar(Estandarizada, filas);
    PasosConservanIds();
    MarcadosDe(reclasificadas, cond, e);
    IdsDondeAplicar(SinEventoNiAyuda, Borrable, Estandarizada, filas);
  }

  /** The rows the passes save are the kept rows, each through every step. */
  lemma GuardadosPorPasos(filas: seq<Fila>, reclasificadas: seq<Fila>, ids: seq<int>)
    requires |reclasificadas| == |filas|
    requires forall i :: 0 <= i < |filas| ==> reclasificadas[i] == Reclasificada(Estandarizada(filas[i]))
    ensures Aplicar(Textos, Quitar(reclasificadas, ids)) == Aplicar(Final, Quitar(filas, ids))
  {
    var e := Aplicar(Estandarizada, filas);
    assert reclasificadas == Aplicar(Reclasificada, e);
    PasosConservanIds();
    QuitarAplicar(Reclasificada, e, ids);
    QuitarAplicar(Estandarizada, filas, ids);
    AplicarFinal(Quitar(filas, ids));
  }

  lemma {:induction false} MarcadosDe(df: seq<Fila>, cond: seq<bool>, e: seq<Fila>)
    requires |df| == |e| && |cond| == |e|
    requires forall i :: 0 <= i < |e| ==>
      cond[i] == IsSinEvento(e[i].evento) && df[i].id == e[i].id && df[i].ayudas == e[i].ayudas
    ensures Marcados(df, cond) == IdsDonde(SinEventoNiAyuda, e)
  {
    if e != [] {
      var n := |e| - 1;
      MarcadosDe(df[..n], cond[..n], e[..n]);
    }
  }

  lemma {:induction false} IdsDondeAplicar(p: Fila -> bool, q: Fila -> bool, g: Fila -> Fila, df: seq<Fila>)
    requires forall f :: q(f) == p(g(f)) && g(f).id == f.id
    ensures IdsDonde(p, Aplicar(g, df)) == IdsDonde(q, df)
  {
    if df != [] {
      var n := |df| - 1;
      IdsDondeAplicar(p, q, g, df[..n]);
      assert Aplicar(g, df)[..n] == Aplicar(g, df[..n]);
    }
  }

  lemma {:induction false} QuitarNada(df: seq<Fila>)
    ensures Quitar(df, []) == df
  {
    if df != [] {
      QuitarNada(df[..|df| - 1]);
    }
  }

  lemma {:induction false} QuitarAplicar(g: Fila -> Fila, df: seq<Fila>, ids: seq<int>)
    requires forall f :: g(f).id == f.id
    ensures Quitar(Aplicar(g, df), ids) == Aplicar(g, Quitar(df, ids))
  {
    if df != [] {
      var n := |df| - 1;
      QuitarAplicar(g, df[..n], ids);
      assert Aplicar(g, df)[..n] == Aplicar(g, df[..n]);
      var b := if df[n].id in ids then [] else [df[n]];
      assert Aplicar(g, Quitar(df[..n], ids) + b) == Aplicar(g, Quitar(df[..n], ids)) + Aplicar(g, b);
    }
  }

  lemma AplicarFinal(df: seq<Fila>)
    ensures Aplicar(Textos, Aplicar(Reclasificada, Aplicar(Estandarizada, df))) == Aplicar(Final, df)
  {
    var a := Aplicar(Textos, Aplicar(Reclasificada, Aplicar(Estandarizada, df)));
    forall i | 0 <= i < |df| ensures a[i] == Final(df[i]) {
    }
  }

  // ---------------------------------------------------------------------------
  // What the deletion removes

  lemma {:induction false} IdsDondeExactos(p: Fila -> bool, df: seq<Fila>)
    ensures forall id :: id in IdsDonde(p, df) <==>
      exists i :: 0 <= i < |df| && df[i].id == id && p(df[i])
  {
    if df != [] {
      var n := |df| - 1;
      IdsDondeExactos(p, df[..n]);
      forall id ensures id in IdsDonde(p, df) <==> exists i :: 0 <= i < |df| && df[i].id == id && p(df[i]) {
        if id in IdsDonde(p, df[..n]) {
          var i :| 0 <= i < n && df[..n][i].id == id && p(df[..n][i]);
          assert df[i] == df[..n][i];
        }
        if exists i :: 0 <= i < |df| && df[i].id == id && p(df[i]) {
          var i :| 0 <= i < |df| && df[i].id == id && p(df[i]);
          if i < n {
            assert df[..n][i] == df[i];
          }
        }
      }
    }
  }

  /** The filter only reads whether each row's id is listed. */
  lemma {:induction false} QuitarFrame(df: seq<Fila>, a: seq<int>, b: seq<int>)
    requires forall i :: 0 <= i < |df| ==> (df[i].id in a <==> df[i].id in b)
    ensures Quitar(df, a) == Quitar(df, b)
  {
    if df != [] {
      QuitarFrame(df[..|df| - 1], a, b);
    }
  }

  /** With distinct ids, dropping the ids of the rows that satisfy `p` drops
      exactly those rows. */
  lemma {:induction false} QuitarIdsDonde(p: Fila -> bool, df: seq<Fila>)
    requires IdsDistintos(df)
    ensures Quitar(df, IdsDonde(p, df)) == Excepto(p, df)
  {
    if df != [] {
      var n := |df| - 1;
      var pre := df[..n];
      var ids := IdsDonde(p, df);
      QuitarIdsDonde(p, pre);
      IdsDondeExactos(p, pre);
      forall i | 0 <= i < n ensures pre[i].id in ids <==> pre[i].id in IdsDonde(p, pre) {
        assert pre[i] == df[i];
      }
      QuitarFrame(pre, ids, IdsDonde(p, pre));
    }
  }

  /** The command deletes the rows the rule selects, and with distinct ids it
      saves every other row and nothing else. */
  lemma EliminacionExacta(filas: seq<Fila>)
    requires IdsDistintos(filas)
    ensures forall id :: id in Eliminados(filas) <==>
      exists i :: 0 <= i < |filas| && filas[i].id == id && Borrable(filas[i])
    ensures Quitar(filas, Eliminados(filas)) == Excepto(Borrable, filas)
  {
    IdsDondeExactos(Borrable, filas);
    QuitarIdsDonde(Borrable, filas);
  }

  // ---------------------------------------------------------------------------
  // The reclassification

  lemma {:induction false} SumaNoNegativa(a: seq<int>)
    requires forall j :: 0 <= j < |a| ==> a[j] >= 0
    ensures Suma(a) >= 0
    ensures forall j :: 0 <= j < |a| ==> a[j] <= Suma(a)
  {
    if a != [] {
      SumaNoNegativa(a[..|a| - 1]);
      assert forall j :: 0 <= j < |a| - 1 ==> a[..|a| - 1][j] == a[j];
    }
  }

  /** With non-negative aid quantities the first two overwrites never show:
      a `SIN EVENTO` row with any aid ends up `ASISTENCIA`, and every other
      row keeps its event. */
  lemma ReclasificadaNoNegativa(f: Fila)
    requires forall j :: 0 <= j < 9 ==> f.ayudas[j] >= 0
    ensures Reclasificada(f) ==
      f.(evento := if IsSinEvento(f.evento) && Suma(f.ayudas) > 0 then Asistencia else f.evento)
  {
    SumaNoNegativa(f.ayudas);
  }

  /** For any aid quantities, negative ones included: a row outside the mask
      keeps its event, and inside it the last overwrite that applies wins, so
      a positive sum gives `ASISTENCIA` whatever the sheets. */
  lemma ReclasificadaCompleta(f: Fila)
    ensures !IsSinEvento(f.evento) ==> Reclasificada(f) == f
    ensures IsSinEvento(f.evento) ==> Reclasificada(f) == f.(evento :=
      if Suma(f.ayudas) > 0 then Asistencia
      else if f.ayudas[ColChapaZinc] > 0 then Temporal
      else if f.ayudas[ColChapaFibrocemento] > 0 then Inundacion
      else f.evento)
    ensures IsSinEvento(f.evento) && Suma(f.ayudas) > 0 ==> Reclasificada(f).evento == Asistencia
  {
  }

  /** The saved row is `SIN EVENTO` only when the row was `SIN EVENTO` after
      the event step and its aid quantities add up to at most zero; when they
      add up to zero exactly, the row was deleted instead. */
  lemma GuardadoSinEvento(f: Fila)
    ensures IsSinEvento(Final(f).evento) ==>
      Final(f).evento == SinEvento && Suma(f.ayudas) <= 0 && (Suma(f.ayudas) == 0 ==> Borrable(f))
  {
    var e := Estandarizada(f);
    ReclassifiedLabels();
    EventoEstandarNormalizado(f.evento);
    assert Final(f).evento == Reclasificada(e).evento;
  }

  /** With non-negative aid quantities no saved row is `SIN EVENTO`. */
  lemma GuardadoNuncaSinEvento(f: Fila)
    requires forall j :: 0 <= j < 9 ==> f.ayudas[j] >= 0
    requires !Borrable(f)
    ensures !IsSinEvento(Final(f).evento)
  {
    GuardadoSinEvento(f);
    SumaNoNegativa(f.ayudas);
  }

  // ---------------------------------------------------------------------------
  // The command's rules next to `DataCleaner`'s

  /** The department step agrees with `limpiar_departamento` except on the
      null-like texts (`''`, blanks, `'nan'`, `'None'` in any case), which it
      maps to `SIN_DEPARTAMENTO` where `limpiar_departamento` gives
      `SIN ESPECIFICAR`, the empty string or the text itself. */
  lemma DepartamentoComparado(s: string)
    ensures NullLike(StrUpper(s)) ==> DepartamentoEstandar(s) == SinDepartamento
    ensures !NullLike(StrUpper(s)) ==> DepartamentoEstandar(s) == LimpiarDepartamento(Str(s))
    ensures DepartamentoEstandar("") == SinDepartamento && LimpiarDepartamento(Str("")) == SinEspecificar
  {
    assert DeptAlias(SinDepartamento) == None;
  }

  /** A department is cleaned to one of the table's departments, to its own
      upper-cased text or to the sentinel. */
  lemma DepartamentoEstandarRango(s: string)
    ensures var r := DepartamentoEstandar(s);
            r in DeptNames || r == StrUpper(s) || r == SinDepartamento
  {
    DeptAliasRange(StrUpper(s));
    assert DeptAlias(SinDepartamento) == None;
  }

  /** The event step agrees with `limpiar_evento` except on the null-like
      texts, which it maps to `SIN EVENTO`. */
  lemma EventoComparado(s: string)
    ensures NullLike(StrUpper(s)) ==> EventoEstandar(s) == SinEvento
    ensures !NullLike(StrUpper(s)) ==> EventoEstandar(s) == LimpiarEvento(Str(s))
  {
    if NullLike(StrUpper(s)) {
      EventoDeMarca();
    } else {
      EventKeyUpper(s);
    }
  }

  lemma EventoDeMarca()
    ensures EventoTraducido(EventoRecortado(SinEventoMarca)) == SinEvento
  {
    RecorteDeMarca();
    TraduccionDeMarca();
  }

  lemma RecorteDeMarca()
    ensures EventoRecortado(SinEventoMarca) == SinEventoMarca
  {
    BeforeHyphenNoHyphen(SinEventoMarca);
    StripOfStripped(SinEventoMarca);
  }

  lemma TraduccionDeMarca()
    ensures EventoTraducido(SinEventoMarca) == SinEvento
  {
    assert EventAlias("SIN_EVENTO") == Some("SIN EVENTO");
  }

  /** The event step gives an upper-case stripped name, and `SIN EVENTO` in
      no other spelling. */
  lemma EventoEstandarNormalizado(s: string)
    ensures Normalized(EventoEstandar(s))
    ensures IsSinEvento(EventoEstandar(s)) <==> EventoEstandar(s) == SinEvento
  {
    EventoComparado(s);
    if NullLike(StrUpper(s)) {
      AsciiLabelNormalized(SinEvento);
    } else {
      EventoNormalized(Str(s));
    }
    NormalizedLabel(EventoEstandar(s));
  }

  /** The locality and district step gives a non-empty stripped text in
      title case. */
  lemma TextoEstandarTitulado(s: string)
    ensures var t := TextoEstandar(s);
            t != "" && IsStripped(t) && Title(t) == t
  {
    var t := Title(Strip(s));
    if t == "Nan" || t == "None" || t == "" {
      SentinelTitled();
    } else {
      StripShape(s);
      TitleKeepsStripped(Strip(s));
      TitleIdempotent(Strip(s));
    }
  }

  /** The locality and district step agrees with `limpiar_texto` except on
      the texts that title-case to `'Nan'`, `'None'` or nothing: a blank text
      becomes `'Sin Especificar'` here and the empty string there. */
  lemma TextoComparado(s: string)
    ensures var t := Title(Strip(s));
            t != "Nan" && t != "None" && t != "" ==> TextoEstandar(s) == LimpiarTexto(Str(s))
    ensures s != [] && AllSpace(s) ==>
      TextoEstandar(s) == SinEspecificarTexto && LimpiarTexto(Str(s)) == ""
  {
    if s != [] && AllSpace(s) {
      StripAllSpace(s);
      TextoOfBlank(s);
    }
  }

  /** A row as the `dict` `DataCleaner` receives. */
  function Registro(f: Fila): Record {
    RecordOf(f.departamento, f.distrito, f.localidad, f.evento, f.ayudas)
  }

  /** The `dict` of a row holds its event and its nine aid quantities. */
  lemma RegistroDeFila(f: Fila)
    ensures EventoIsStr(Registro(f)) && AidsAreInts(Registro(f))
    ensures EventoOf(Registro(f)) == f.evento
    ensures Aid(Registro(f), ChapaFibrocemento) == f.ayudas[ColChapaFibrocemento]
    ensures Aid(Registro(f), ChapaZinc) == f.ayudas[ColChapaZinc]
    ensures TotalAids(Registro(f)) == Suma(f.ayudas)
  {
    SumAidsOfRecord(f.departamento, f.distrito, f.localidad, f.evento, f.ayudas, 9);
    assert AidFields[..9] == AidFields && f.ayudas[..9] == f.ayudas;
  }

  /** On a `SIN EVENTO` row with non-negative aid quantities the command
      and `post_process_eventos_with_aids` agree exactly when the row has
      neither fibre-cement nor zinc sheets: with either, the post-processing
      says `INUNDACION` or `TEMPORAL` and the command `ASISTENCIA`. */
  lemma ReclasificacionComparada(f: Fila)
    requires f.evento == SinEvento
    requires forall j :: 0 <= j < 9 ==> f.ayudas[j] >= 0
    ensures EventoIsStr(Registro(f)) && AidsAreInts(Registro(f))
    ensures Reclasificada(f).evento == PostProcess(Registro(f)) <==>
      f.ayudas[ColChapaFibrocemento] == 0 && f.ayudas[ColChapaZinc] == 0
  {
    RegistroDeFila(f);
    ReclasificadaNoNegativa(f);
    ReclassifiedLabels();
    SumaNoNegativa(f.ayudas);
  }
}
