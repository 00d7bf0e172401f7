/** `DataCleaner`, the per-record cleaner the dashboard views use: one
    normaliser per field (aid quantities, department, event, free text), the
    reclassification of records without an event from their aid quantities,
    and the whole-record pipeline that applies them to a copy of a record.

    A record is a `Record` (a Python `dict`); Dafny maps are values,
    so the pipeline can never change the dictionary it was given. */
module DataCleaner {
  import opened Wrappers
  import opened Text
  import opened PyValues
  import opened Tables
  import opened Fields
  import opened Secuencias

  const SinEspecificar: string := "SIN ESPECIFICAR"
  const SinEvento: string := "SIN EVENTO"
  const SinEspecificarTexto: string := "Sin Especificar"
  const Inundacion: string := "INUNDACION"
  const Temporal: string := "TEMPORAL"
  const Asistencia: string := "ASISTENCIA"

  /** A record: a `dict` from field names to values. */
  type Record = map<Field, Value>

  /** `not v or pd.isna(v)`: the values every text cleaner replaces by its sentinel. */
  predicate Missing(v: Value) {
    IsFalsy(v) || IsNa(v)
  }

  /** A cleaned name: no surrounding whitespace and no lower-case letter. */
  predicate Normalized(s: string) {
    IsStripped(s) && !HasLower(s)
  }

  // ---------------------------------------------------------------------------
  // limpiar_numero

  /** `limpiar_numero`: `int(float(v))`, with missing values, the empty string
      and anything `float()` rejects giving 0. */
  function LimpiarNumero(v: Value): (n: int)
    ensures IsNa(v) || v == Str("") || v.Day? ==> n == 0
    ensures v.Int? ==> n == v.i
    ensures v.Float? && v.x >= 0.0 ==> 0 <= n && n as real <= v.x < n as real + 1.0
    ensures v.Float? && v.x < 0.0 ==> n <= 0 && n as real - 1.0 < v.x <= n as real
    ensures v.Str? && DecimalTrunc(v.s).None? ==> n == 0
  {
    match v
    case Null => 0
    case Nan => 0
    case Str(s) => if s == "" then 0 else DecimalTrunc(s).GetOr(0)
    case Int(i) => i
    case Float(x, _) => Truncate(x)
    case Day(_) => 0
  }

  /** The decimal text of an integer is read back as that integer. */
  lemma NumeroOfDecimal(i: int)
    ensures LimpiarNumero(Str(IntToDecimal(i))) == i
  {
    IntToDecimalRoundTrip(i);
  }

  /** A decimal string is truncated toward zero: `'12.7'` gives 12 and `'-3.9'` gives -3. */
  lemma NumeroTruncatesDecimal(sign: string, ip: string, fp: string)
    requires sign == "" || sign == "-"
    requires ip != [] && AllDigits(ip) && AllDigits(fp)
    ensures LimpiarNumero(Str(sign + ip + "." + fp)) ==
            if sign == "-" then -(DigitsValue(ip) as int) else DigitsValue(ip)
  {
    var body := ip + "." + fp;
    assert sign + ip + "." + fp == sign + body;
    assert body[0] == ip[0];
    DecimalIsStripped(ip, fp);
    UnsignedTruncOfDigits(ip, fp);
    NumeroOfSigned(sign, body, DigitsValue(ip));
  }

  lemma NumeroOfSigned(sign: string, body: string, n: int)
    requires sign == "" || sign == "-"
    requires IsStripped(body) && body != [] && IsDigit(body[0])
    requires UnsignedTrunc(body) == Some(n)
    ensures LimpiarNumero(Str(sign + body)) == if sign == "-" then -n else n
  {
    DecimalTruncSigned(sign, body, n);
  }

  /** A string without any digit is not a number: it gives 0. */
  lemma NumeroOfNonNumeric(s: string)
    requires forall i :: 0 <= i < |s| ==> !IsDigit(s[i])
    ensures LimpiarNumero(Str(s)) == 0
  {
    var t := Strip(s);
    forall c | c in t ensures !IsDigit(c) {
      StripKeepsChars(s, c);
    }
    if |t| > 0 {
      UnsignedTruncNoDigits(t[1..]);
    }
    UnsignedTruncNoDigits(t);
  }

  lemma UnsignedTruncNoDigits(t: string)
    requires forall c :: c in t ==> !IsDigit(c)
    ensures UnsignedTrunc(t) == None
  {
    var ip := LeadingDigits(t);
    var rest := t[|ip|..];
    if |rest| > 1 {
      assert rest[1] in t;
    }
  }

  // ---------------------------------------------------------------------------
  // limpiar_departamento

  /** `limpiar_departamento`: the sentinel for a missing value, otherwise the
      department the stripped, upper-cased text is an alias of, or that text
      itself when it is no alias. */
  function LimpiarDepartamento(v: Value): (r: string)
    ensures Missing(v) ==> r == SinEspecificar
  {
    if Missing(v) then SinEspecificar
    else
      var k := Upper(Strip(PyStr(v)));
      DeptAlias(k).GetOr(k)
  }

  /** A present department is cleaned either to one of the table's departments
      or to its own stripped, upper-cased text. */
  lemma DepartamentoRange(v: Value)
    requires !Missing(v)
    ensures var r := LimpiarDepartamento(v);
            r in DeptNames || r == Upper(Strip(PyStr(v)))
  {
    DeptAliasRange(Upper(Strip(PyStr(v))));
  }

  /** `upper(strip(s))` has no surrounding whitespace and no lower-case letter. */
  lemma UpperStripNormalized(s: string)
    ensures Normalized(Upper(Strip(s)))
  {
    StripUpper(s);
    StripShape(Upper(s));
    UpperHasNoLower(Strip(s));
  }

  lemma CanonicalNormalized(v: string)
    requires Canonical(v)
    ensures Normalized(v)
  {
  }

  lemma DepartamentoNormalized(v: Value)
    ensures Normalized(LimpiarDepartamento(v))
  {
    if !Missing(v) {
      var k := Upper(Strip(PyStr(v)));
      UpperStripNormalized(PyStr(v));
      if DeptAlias(k).Some? {
        DeptAliasValue(k);
        CanonicalNormalized(DeptAlias(k).value);
      }
    } else {
      assert !HasLower(SinEspecificar);
    }
  }

  /** A non-empty whitespace-only department is cleaned to the empty string,
      not to the sentinel. */
  lemma DepartamentoOfBlank(s: string)
    requires s != [] && AllSpace(s)
    ensures LimpiarDepartamento(Str(s)) == ""
  {
    StripAllSpace(s);
  }

  /** Cleaning a cleaned department changes nothing, except the empty string a
      blank input gives, which becomes the sentinel. */
  lemma DepartamentoIdempotent(v: Value)
    ensures var r := LimpiarDepartamento(v);
            LimpiarDepartamento(Str(r)) == if r == "" then SinEspecificar else r
  {
    var r := LimpiarDepartamento(v);
    if r != "" {
      DepartamentoNormalized(v);
      if Missing(v) {
        assert DeptAlias(SinEspecificar) == None;
      } else {
        var k := Upper(Strip(PyStr(v)));
        if DeptAlias(k).Some? {
          DeptAliasValue(k);
        }
      }
      DepartamentoOfFixedKey(r);
    }
  }

  /** A non-empty cleaned name that is no key of the table is cleaned to itself. */
  lemma DepartamentoOfFixedKey(r: string)
    requires r != "" && Normalized(r) && DeptAlias(r) == None
    ensures LimpiarDepartamento(Str(r)) == r
  {
    StripOfStripped(r);
    UpperOfNoLower(r);
  }

  // ---------------------------------------------------------------------------
  // limpiar_evento

  /** The lookup key of an event: the text before the first hyphen, stripped
      and upper-cased. */
  function EventKey(s: string): string {
    Upper(Strip(BeforeHyphen(s)))
  }

  /** `limpiar_evento`: the sentinel for a missing value, otherwise the event
      the key is an alias of, or the key itself when it is no alias. */
  function LimpiarEvento(v: Value): (r: string)
    ensures Missing(v) ==> r == SinEvento
  {
    if Missing(v) then SinEvento
    else
      var k := EventKey(PyStr(v));
      EventAlias(k).GetOr(k)
  }

  /** A present event is cleaned either to one of the table's categories or to
      its own key. */
  lemma EventoRange(v: Value)
    requires !Missing(v)
    ensures var r := LimpiarEvento(v);
            r in EventNames || r == EventKey(PyStr(v))
  {
    EventAliasRange(EventKey(PyStr(v)));
  }

  lemma EventKeyShape(s: string)
    ensures Normalized(EventKey(s))
    ensures '-' !in EventKey(s)
  {
    var b := BeforeHyphen(s);
    BeforeHyphenShape(s);
    if '-' in Strip(b) {
      StripKeepsChars(b, '-');
    }
    UpperNoHyphen(Strip(b));
    UpperStripNormalized(b);
  }

  /** The hyphenated key `SEQUIA-INUND.` of the event table is never looked up. */
  lemma HyphenatedEventKeyUnreachable(s: string)
    ensures EventAlias("SEQUIA-INUND.").Some?
    ensures EventKey(s) != "SEQUIA-INUND."
  {
    EventKeyShape(s);
    assert "SEQUIA-INUND."[6] == '-';
  }

  lemma EventoNormalized(v: Value)
    ensures Normalized(LimpiarEvento(v)) && '-' !in LimpiarEvento(v)
  {
    if !Missing(v) {
      var k := EventKey(PyStr(v));
      EventKeyShape(PyStr(v));
      if EventAlias(k).Some? {
        EventAliasValue(k);
        CanonicalNormalized(EventAlias(k).value);
      }
    } else {
      assert !HasLower(SinEvento);
    }
  }

  /** An event whose text before the first hyphen is blank is cleaned to the
      empty string, not to the sentinel. */
  lemma EventoOfBlankKey(s: string)
    requires s != [] && AllSpace(BeforeHyphen(s))
    ensures LimpiarEvento(Str(s)) == ""
  {
    StripAllSpace(BeforeHyphen(s));
    assert EventAlias("") == None;
  }

  /** A string that `limpiar_evento` already produced is a fixed point of the key. */
  lemma EventKeyOfClean(r: string)
    requires Normalized(r) && '-' !in r
    ensures EventKey(r) == r
  {
    BeforeHyphenNoHyphen(r);
    StripOfStripped(r);
    UpperOfNoLower(r);
  }

  /** A non-empty cleaned name that the table maps to itself, or not at all,
      is cleaned to itself. */
  lemma EventoOfFixedKey(r: string)
    requires r != "" && Normalized(r) && '-' !in r
    requires EventAlias(r).GetOr(r) == r
    ensures LimpiarEvento(Str(r)) == r
  {
    EventKeyOfClean(r);
  }

  /** Cleaning a cleaned event changes nothing, except the empty string, which
      becomes the sentinel. */
  lemma EventoIdempotent(v: Value)
    ensures var r := LimpiarEvento(v);
            LimpiarEvento(Str(r)) == if r == "" then SinEvento else r
  {
    var r := LimpiarEvento(v);
    if r != "" {
      EventoNormalized(v);
      if Missing(v) {
        assert EventAlias(SinEvento) == None;
      } else {
        var k := EventKey(PyStr(v));
        if EventAlias(k).Some? {
          EventAliasValue(k);
        }
      }
      EventoOfFixedKey(r);
    }
  }

  /** Every event category of the table is cleaned to itself. */
  lemma EventoOfEventName(e: string)
    requires e in EventNames
    ensures LimpiarEvento(Str(e)) == e
  {
    EventNamesCanonical(e);
    CanonicalNormalized(e);
    EventKeyOfClean(e);
    EventNamesFixed(e);
  }

  // ---------------------------------------------------------------------------
  // limpiar_texto

  /** `limpiar_texto`: the sentinel for a missing value, otherwise the stripped
      text in title case. Only letter case differs from the stripped input. */
  function LimpiarTexto(v: Value): (r: string)
    ensures Missing(v) ==> r == SinEspecificarTexto
  {
    if Missing(v) then SinEspecificarTexto
    else Title(Strip(PyStr(v)))
  }

  /** A present text differs from its stripped form in letter case only. */
  lemma TextoCaseOnly(v: Value)
    requires !Missing(v)
    ensures Upper(LimpiarTexto(v)) == Upper(Strip(PyStr(v)))
  {
    UpperOfTitle(Strip(PyStr(v)));
  }

  /** The text sentinel is already in title case. */
  lemma SentinelTitled()
    ensures Title(SinEspecificarTexto) == SinEspecificarTexto
  {
    assert SinEspecificarTexto == "Sin " + "Especificar";
    TitleAfterUncased("Sin ", "Especificar");
    assert Title("Sin ") == "Sin " by {
      assert IsCased('S') && IsCased('i') && !IsCased(' ');
    }
    EspecificarTitled();
  }

  lemma EspecificarTitled()
    ensures Title("Especificar") == "Especificar"
  {
    var s := "Especificar";
    var t := Title(s);
    assert IsCased('E') && IsCased('s') && IsCased('p') && IsCased('e') && IsCased('c') &&
           IsCased('i') && IsCased('f') && IsCased('a');
    assert forall i :: 0 <= i < |s| ==> t[i] == s[i];
  }

  /** A non-empty whitespace-only text is cleaned to the empty string, not to
      the sentinel. */
  lemma TextoOfBlank(s: string)
    requires s != [] && AllSpace(s)
    ensures LimpiarTexto(Str(s)) == ""
  {
    StripAllSpace(s);
  }

  lemma TextoStripped(v: Value)
    ensures IsStripped(LimpiarTexto(v))
  {
    if !Missing(v) {
      StripShape(PyStr(v));
      TitleKeepsStripped(Strip(PyStr(v)));
    }
  }

  /** Cleaning a cleaned text changes nothing, except the empty string, which
      becomes the sentinel. */
  lemma TextoIdempotent(v: Value)
    ensures var r := LimpiarTexto(v);
            LimpiarTexto(Str(r)) == if r == "" then SinEspecificarTexto else r
  {
    if Missing(v) {
      SentinelCleaned();
    } else {
      PresentTextoIdempotent(v);
    }
  }

  /** The text sentinel is cleaned to itself. */
  lemma SentinelCleaned()
    ensures LimpiarTexto(Str(SinEspecificarTexto)) == SinEspecificarTexto
  {
    StripOfStripped(SinEspecificarTexto);
    SentinelTitled();
  }

  lemma PresentTextoIdempotent(v: Value)
    requires !Missing(v)
    ensures var r := LimpiarTexto(v);
            LimpiarTexto(Str(r)) == if r == "" then SinEspecificarTexto else r
  {
    var t := Strip(PyStr(v));
    StripShape(PyStr(v));
    if Title(t) != "" {
      TitledTextoAgain(t);
    }
  }

  /** A stripped text in title case is cleaned to itself. */
  lemma TitledTextoAgain(t: string)
    requires IsStripped(t) && Title(t) != ""
    ensures LimpiarTexto(Str(Title(t))) == Title(t)
  {
    TitleKeepsStripped(t);
    StripOfStripped(Title(t));
    TitleIdempotent(t);
  }

  // ---------------------------------------------------------------------------
  // post_process_eventos_with_aids

  /** The aid fields of a record hold cleaned integers, as the post-processing
      step expects. */
  predicate AidsAreInts(record: Record) {
    forall f :: IsAid(f) && f in record ==> record[f].Int?
  }

  predicate EventoIsStr(record: Record) {
    Evento in record ==> record[Evento].Str?
  }

  /** `record.get(f, 0)` for an aid field. */
  function Aid(record: Record, f: Field): int {
    if f in record && record[f].Int? then record[f].i else 0
  }

  /** `sum(record.get(f, 0) for f in fields)` */
  function SumAids(record: Record, fields: seq<Field>): int {
    if fields == [] then 0
    else SumAids(record, fields[..|fields| - 1]) + Aid(record, fields[|fields| - 1])
  }

  function TotalAids(record: Record): int {
    SumAids(record, AidFields)
  }

  /** The `dict` of one row or one stored record: the four place and event
      texts and the nine aid quantities in `aid_fields` order. */
  function RecordOf(departamento: string, distrito: string, localidad: string, evento: string,
                    ayudas: seq<int>): Record
    requires |ayudas| == 9
  {
    map[Departamento := Str(departamento), Distrito := Str(distrito),
        Localidad := Str(localidad), Evento := Str(evento),
        KitB := Int(ayudas[0]), KitA := Int(ayudas[1]),
        ChapaFibrocemento := Int(ayudas[2]), ChapaZinc := Int(ayudas[3]),
        Colchones := Int(ayudas[4]), Frazadas := Int(ayudas[5]),
        Terciadas := Int(ayudas[6]), Puntales := Int(ayudas[7]),
        CarpasPlasticas := Int(ayudas[8])]
  }

  /** Summing such a `dict` over a prefix of `aid_fields` sums the same
      prefix of its quantities. */
  lemma {:induction false} SumAidsOfRecord(departamento: string, distrito: string,
                                           localidad: string, evento: string,
                                           ayudas: seq<int>, k: nat)
    requires |ayudas| == 9 && k <= 9
    ensures SumAids(RecordOf(departamento, distrito, localidad, evento, ayudas), AidFields[..k])
            == Suma(ayudas[..k])
  {
    if k > 0 {
      SumAidsOfRecord(departamento, distrito, localidad, evento, ayudas, k - 1);
      var r := RecordOf(departamento, distrito, localidad, evento, ayudas);
      assert AidFields[..k][..k - 1] == AidFields[..k - 1];
      assert ayudas[..k][..k - 1] == ayudas[..k - 1];
      assert Aid(r, AidFields[k - 1]) == ayudas[k - 1];
    }
  }

  /** `record.get('evento', 'SIN EVENTO')` */
  function EventoOf(record: Record): string
    requires EventoIsStr(record)
  {
    if Evento in record then record[Evento].s else SinEvento
  }

  /** `e.upper().strip() == 'SIN EVENTO'` */
  predicate IsSinEvento(e: string) {
    Strip(Upper(e)) == SinEvento
  }

  /** `post_process_eventos_with_aids`: an event other than `SIN EVENTO` (in
      any letter case or padding) is kept; `SIN EVENTO` becomes the first of
      `INUNDACION` (fibre-cement sheets handed out), `TEMPORAL` (zinc sheets),
      `ASISTENCIA` (any aid at all), and stays `SIN EVENTO` otherwise. */
  function PostProcess(record: Record): (r: string)
    requires EventoIsStr(record) && AidsAreInts(record)
    ensures !IsSinEvento(EventoOf(record)) ==> r == EventoOf(record)
    ensures IsSinEvento(EventoOf(record)) ==>
      r == Inundacion || r == Temporal || r == Asistencia || r == SinEvento
    ensures IsSinEvento(EventoOf(record)) ==>
      (r == Inundacion <==> Aid(record, ChapaFibrocemento) > 0) &&
      (r == Temporal <==> Aid(record, ChapaFibrocemento) <= 0 && Aid(record, ChapaZinc) > 0) &&
      (r == Asistencia <==>
         Aid(record, ChapaFibrocemento) <= 0 && Aid(record, ChapaZinc) <= 0 && TotalAids(record) > 0) &&
      (r == SinEvento <==>
         Aid(record, ChapaFibrocemento) <= 0 && Aid(record, ChapaZinc) <= 0 && TotalAids(record) <= 0)
  {
    var evento := EventoOf(record);
    if IsSinEvento(evento) then
      if Aid(record, ChapaFibrocemento) > 0 then Inundacion
      else if Aid(record, ChapaZinc) > 0 then Temporal
      else if TotalAids(record) > 0 then Asistencia
      else SinEvento
    else evento
  }

  /** The sum only reads the fields it adds up. */
  lemma {:induction false} SumAidsFrame(a: Record, b: Record, fields: seq<Field>)
    requires forall i :: 0 <= i < |fields| ==> Aid(a, fields[i]) == Aid(b, fields[i])
    ensures SumAids(a, fields) == SumAids(b, fields)
  {
    if fields != [] {
      SumAidsFrame(a, b, fields[..|fields| - 1]);
    }
  }

  /** With no negative aid, every listed aid is at most the sum. */
  lemma {:induction false} AidAtMostSum(record: Record, fields: seq<Field>, f: Field)
    requires forall i :: 0 <= i < |fields| ==> Aid(record, fields[i]) >= 0
    ensures SumAids(record, fields) >= 0
    ensures f in fields ==> Aid(record, f) <= SumAids(record, fields)
  {
    if fields != [] {
      var init := fields[..|fields| - 1];
      AidAtMostSum(record, init, f);
      if f in fields && f != fields[|fields| - 1] {
        assert f in init;
      }
    }
  }

  ghost predicate NonNegativeAids(record: Record) {
    forall f :: IsAid(f) ==> Aid(record, f) >= 0
  }

  /** The non-event labels the post-processing emits are not `SIN EVENTO`. */
  lemma ReclassifiedLabels()
    ensures !IsSinEvento(Inundacion) && !IsSinEvento(Temporal) && !IsSinEvento(Asistencia)
    ensures IsSinEvento(SinEvento)
  {
    AsciiLabelNormalized(Inundacion);
    AsciiLabelNormalized(Temporal);
    AsciiLabelNormalized(Asistencia);
    AsciiLabelNormalized(SinEvento);
    NormalizedLabel(Inundacion);
    NormalizedLabel(Temporal);
    NormalizedLabel(Asistencia);
    NormalizedLabel(SinEvento);
  }

  /** Upper-case ASCII words separated by single inner spaces are normalized. */
  lemma AsciiLabelNormalized(s: string)
    requires s != []
    requires forall i :: 0 <= i < |s| ==> 'A' <= s[i] <= 'Z' || (s[i] == ' ' && 0 < i < |s| - 1)
    ensures Normalized(s)
  {
  }

  /** A normalized label is `SIN EVENTO` for the post-processing only when it
      is that very string. */
  lemma NormalizedLabel(s: string)
    requires Normalized(s)
    ensures IsSinEvento(s) <==> s == SinEvento
  {
    UpperOfNoLower(s);
    StripOfStripped(s);
  }

  /** Two records agree on the nine aid quantities. */
  ghost predicate SameAids(a: Record, b: Record) {
    forall f :: IsAid(f) ==> Aid(a, f) == Aid(b, f)
  }

  /** Rewriting the event leaves the aid quantities alone. */
  lemma SameAidsAfterEvento(record: Record, e: Value)
    ensures SameAids(record[Evento := e], record)
  {
  }

  /** The post-processing reads only the event and the nine aid quantities. */
  lemma PostProcessFrame(a: Record, b: Record)
    requires EventoIsStr(a) && AidsAreInts(a) && EventoIsStr(b) && AidsAreInts(b)
    requires EventoOf(a) == EventoOf(b) && SameAids(a, b)
    ensures PostProcess(a) == PostProcess(b)
  {
    AidFieldsAreAids();
    SumAidsFrame(a, b, AidFields);
  }

  /** Post-processing a record whose event was already post-processed changes
      nothing: the first matching branch decides once and for all. */
  lemma PostProcessIdempotent(record: Record)
    requires EventoIsStr(record) && AidsAreInts(record)
    ensures var r := PostProcess(record);
            PostProcess(record[Evento := Str(r)]) == r
  {
    var r := PostProcess(record);
    if !IsSinEvento(EventoOf(record)) || r != SinEvento {
      LabelledIdempotent(record);
    } else {
      UnlabelledIdempotent(record);
    }
  }

  /** A record that comes out of the post-processing with an event other than
      `SIN EVENTO` keeps it the second time. */
  lemma LabelledIdempotent(record: Record)
    requires EventoIsStr(record) && AidsAreInts(record)
    requires !IsSinEvento(EventoOf(record)) || PostProcess(record) != SinEvento
    ensures var r := PostProcess(record);
            PostProcess(record[Evento := Str(r)]) == r
  {
    var r := PostProcess(record);
    assert EventoOf(record[Evento := Str(r)]) == r;
    ReclassifiedLabels();
  }

  /** A record that stays `SIN EVENTO` is reclassified from the same aid the
      second time, and stays `SIN EVENTO` again. */
  lemma UnlabelledIdempotent(record: Record)
    requires EventoIsStr(record) && AidsAreInts(record)
    requires IsSinEvento(EventoOf(record)) && PostProcess(record) == SinEvento
    ensures PostProcess(record[Evento := Str(SinEvento)]) == SinEvento
  {
    SentinelIsSinEvento();
    ReclassifyAgain(record, SinEvento);
  }

  lemma SentinelIsSinEvento()
    ensures IsSinEvento(SinEvento)
  {
    ReclassifiedLabels();
  }

  /** Replacing the event of a record without one by another spelling of
      `SIN EVENTO` does not change its reclassification. */
  lemma ReclassifyAgain(record: Record, e: string)
    requires EventoIsStr(record) && AidsAreInts(record)
    requires IsSinEvento(EventoOf(record)) && IsSinEvento(e)
    ensures PostProcess(record[Evento := Str(e)]) == PostProcess(record)
  {
    var again := record[Evento := Str(e)];
    assert EventoOf(again) == e;
    SameAidsAfterEvento(record, Str(e));
    ReclassificationFrame(again, record);
  }

  /** Two records that both lack an event and hand out the same aid are
      reclassified alike. */
  lemma ReclassificationFrame(a: Record, b: Record)
    requires EventoIsStr(a) && AidsAreInts(a) && EventoIsStr(b) && AidsAreInts(b)
    requires IsSinEvento(EventoOf(a)) && IsSinEvento(EventoOf(b)) && SameAids(a, b)
    ensures PostProcess(a) == PostProcess(b)
  {
    AidFieldsAreAids();
    SumAidsFrame(a, b, AidFields);
  }

  /** With no negative aid, a `SIN EVENTO` record keeps `SIN EVENTO` exactly
      when it received no aid at all, and becomes `INUNDACION` whenever it
      received fibre-cement sheets. */
  lemma PostProcessWithoutAid(record: Record)
    requires EventoIsStr(record) && AidsAreInts(record) && NonNegativeAids(record)
    requires IsSinEvento(EventoOf(record))
    ensures PostProcess(record) == SinEvento <==> TotalAids(record) == 0
    ensures Aid(record, ChapaFibrocemento) > 0 ==> PostProcess(record) == Inundacion
  {
    AidAtMostSum(record, AidFields, ChapaFibrocemento);
    AidAtMostSum(record, AidFields, ChapaZinc);
  }

  // ---------------------------------------------------------------------------
  // limpiar_registro_completo

  /** One turn of the aid loop: a present field is replaced by its cleaned number. */
  function CleanAid(rec: Record, f: Field): Record {
    if f in rec then rec[f := Int(LimpiarNumero(rec[f]))] else rec
  }

  /** The aid loop over `fields`, in order. */
  function CleanAids(rec: Record, fields: seq<Field>): Record
    decreases |fields|
  {
    if fields == [] then rec else CleanAids(CleanAid(rec, fields[0]), fields[1..])
  }

  lemma {:induction false} CleanAidsKeys(rec: Record, fields: seq<Field>)
    ensures CleanAids(rec, fields).Keys == rec.Keys
  {
    if fields != [] {
      CleanAidsKeys(CleanAid(rec, fields[0]), fields[1..]);
    }
  }

  /** The aid loop leaves every field it does not list alone. */
  lemma {:induction false} CleanAidsOther(rec: Record, fields: seq<Field>, k: Field)
    requires k !in fields && k in rec
    ensures k in CleanAids(rec, fields) && CleanAids(rec, fields)[k] == rec[k]
  {
    if fields != [] {
      CleanAidsOther(CleanAid(rec, fields[0]), fields[1..], k);
    }
  }

  /** The aid loop cleans each listed field that is present, once or several
      times alike: a cleaned number is cleaned to itself. */
  lemma {:induction false} CleanAidsListed(rec: Record, fields: seq<Field>, k: Field)
    requires k in fields && k in rec
    ensures k in CleanAids(rec, fields) && CleanAids(rec, fields)[k] == Int(LimpiarNumero(rec[k]))
  {
    var next := CleanAid(rec, fields[0]);
    if k in fields[1..] {
      CleanAidsListed(next, fields[1..], k);
    } else {
      CleanAidsOther(next, fields[1..], k);
    }
  }

  /** After the aid loop every aid field present holds an integer. */
  lemma CleanAidsAreInts(rec: Record)
    ensures AidsAreInts(CleanAids(rec, AidFields))
  {
    var a := CleanAids(rec, AidFields);
    CleanAidsKeys(rec, AidFields);
    forall f | IsAid(f) && f in a ensures a[f].Int? {
      AidFieldsMembers(f);
      CleanAidsListed(rec, AidFields, f);
    }
  }

  /** The event step: a present event is replaced by `limpiar_evento` of it. */
  function EventoStep(rec: Record): Record {
    if Evento in rec then rec[Evento := Str(LimpiarEvento(rec[Evento]))] else rec
  }

  /** After the event step the event is a string and the aid fields are as they were. */
  lemma EventoStepFacts(rec: Record)
    requires AidsAreInts(rec)
    ensures EventoIsStr(EventoStep(rec)) && AidsAreInts(EventoStep(rec))
  {
  }

  /** The post-processing step, on the record as it stands after the event step. */
  function PostProcessStep(rec: Record): Record
    requires EventoIsStr(rec) && AidsAreInts(rec)
  {
    if Evento in rec then rec[Evento := Str(PostProcess(rec))] else rec
  }

  /** The department step. */
  function DepartamentoStep(rec: Record): Record {
    if Departamento in rec then rec[Departamento := Str(LimpiarDepartamento(rec[Departamento]))] else rec
  }

  /** One turn of the text loop. */
  function CleanTexto(rec: Record, f: Field): Record {
    if f in rec then rec[f := Str(LimpiarTexto(rec[f]))] else rec
  }

  /** The text loop over `fields`, in order. */
  function CleanTextos(rec: Record, fields: seq<Field>): Record
    decreases |fields|
  {
    if fields == [] then rec else CleanTextos(CleanTexto(rec, fields[0]), fields[1..])
  }

  lemma {:induction false} CleanTextosKeys(rec: Record, fields: seq<Field>)
    ensures CleanTextos(rec, fields).Keys == rec.Keys
  {
    if fields != [] {
      CleanTextosKeys(CleanTexto(rec, fields[0]), fields[1..]);
    }
  }

  /** The text loop leaves every field it does not list alone. */
  lemma {:induction false} CleanTextosOther(rec: Record, fields: seq<Field>, k: Field)
    requires k !in fields && k in rec
    ensures k in CleanTextos(rec, fields) && CleanTextos(rec, fields)[k] == rec[k]
  {
    if fields != [] {
      CleanTextosOther(CleanTexto(rec, fields[0]), fields[1..], k);
    }
  }

  /** The text loop cleans a field it lists once, once. */
  lemma {:induction false} CleanTextosListed(rec: Record, fields: seq<Field>, k: Field)
    requires k in fields && k in rec
    requires forall i, j :: 0 <= i < j < |fields| ==> fields[i] != fields[j]
    ensures k in CleanTextos(rec, fields) && CleanTextos(rec, fields)[k] == Str(LimpiarTexto(rec[k]))
  {
    var next := CleanTexto(rec, fields[0]);
    if k == fields[0] {
      assert k !in fields[1..];
      CleanTextosOther(next, fields[1..], k);
    } else {
      CleanTextosListed(next, fields[1..], k);
    }
  }

  /** The aid loop over the nine aid fields: every key kept, each aid field
      present cleaned by `limpiar_numero`, every other field as it was. */
  lemma CleanAidsAt(rec: Record, k: Field)
    requires k in rec
    ensures k in CleanAids(rec, AidFields)
    ensures CleanAids(rec, AidFields)[k] == if IsAid(k) then Int(LimpiarNumero(rec[k])) else rec[k]
  {
    AidFieldsMembers(k);
    if IsAid(k) {
      CleanAidsListed(rec, AidFields, k);
    } else {
      CleanAidsOther(rec, AidFields, k);
    }
  }

  /** The text loop over `distrito` and `localidad`: every key kept, each of
      the two present cleaned by `limpiar_texto`, every other field as it was. */
  lemma CleanTextosAt(rec: Record, k: Field)
    requires k in rec
    ensures k in CleanTextos(rec, TextFields)
    ensures CleanTextos(rec, TextFields)[k] == if IsText(k) then Str(LimpiarTexto(rec[k])) else rec[k]
  {
    TextFieldsMembers(k);
    if IsText(k) {
      CleanTextosListed(rec, TextFields, k);
    } else {
      CleanTextosOther(rec, TextFields, k);
    }
  }

  lemma CleanAidsAll(rec: Record)
    ensures forall k :: k in rec ==>
      k in CleanAids(rec, AidFields) &&
      CleanAids(rec, AidFields)[k] == if IsAid(k) then Int(LimpiarNumero(rec[k])) else rec[k]
  {
    forall k | k in rec
      ensures k in CleanAids(rec, AidFields) && CleanAids(rec, AidFields)[k] == if IsAid(k) then Int(LimpiarNumero(rec[k])) else rec[k]
    {
      CleanAidsAt(rec, k);
    }
  }

  lemma CleanTextosAll(rec: Record)
    ensures forall k :: k in rec ==>
      k in CleanTextos(rec, TextFields) &&
      CleanTextos(rec, TextFields)[k] == if IsText(k) then Str(LimpiarTexto(rec[k])) else rec[k]
  {
    forall k | k in rec
      ensures k in CleanTextos(rec, TextFields) &&
        CleanTextos(rec, TextFields)[k] == if IsText(k) then Str(LimpiarTexto(rec[k])) else rec[k]
    {
      CleanTextosAt(rec, k);
    }
  }

  /** The whole pipeline, step by step as `limpiar_registro_completo` runs it. */
  function CleanRecord(rec: Record): Record {
    var a := CleanAids(rec, AidFields);
    CleanAidsAreInts(rec);
    EventoStepFacts(a);
    CleanTextos(DepartamentoStep(PostProcessStep(EventoStep(a))), TextFields)
  }

  lemma CleanRecordKeys(rec: Record)
    ensures CleanRecord(rec).Keys == rec.Keys
  {
    var a := CleanAids(rec, AidFields);
    CleanAidsKeys(rec, AidFields);
    CleanAidsAreInts(rec);
    EventoStepFacts(a);
    CleanTextosKeys(DepartamentoStep(PostProcessStep(EventoStep(a))), TextFields);
  }

  /** The event a record ends up with: `limpiar_evento`, then the
      reclassification from the cleaned aid quantities. */
  function CleanEvento(rec: Record): string
    requires Evento in rec
  {
    var a := CleanAids(rec, AidFields);
    CleanAidsAreInts(rec);
    EventoStepFacts(a);
    PostProcess(EventoStep(a))
  }

  /** What each field of a record becomes, field by field: the reference
      the pipeline is checked against. */
  function CleanField(rec: Record, k: Field): Value
    requires k in rec
  {
    if IsAid(k) then Int(LimpiarNumero(rec[k]))
    else if k == Evento then Str(CleanEvento(rec))
    else if k == Departamento then Str(LimpiarDepartamento(rec[k]))
    else if IsText(k) then Str(LimpiarTexto(rec[k]))
    else rec[k]
  }

  /** The event and department steps touch only their own field. */
  lemma MiddleStepsAt(a: Record, k: Field)
    requires EventoIsStr(EventoStep(a)) && AidsAreInts(EventoStep(a))
    requires k in a
    ensures var d := DepartamentoStep(PostProcessStep(EventoStep(a)));
      k in d &&
      d[k] == if k == Evento then Str(PostProcess(EventoStep(a)))
              else if k == Departamento then Str(LimpiarDepartamento(a[k]))
              else a[k]
  {
    var b := EventoStep(a);
    assert k in b && b[k] == if k == Evento then Str(LimpiarEvento(a[k])) else a[k];
    PostProcessStepAt(b, k);
    DepartamentoStepAt(PostProcessStep(b), k);
  }

  lemma PostProcessStepAt(b: Record, k: Field)
    requires EventoIsStr(b) && AidsAreInts(b) && k in b
    ensures k in PostProcessStep(b)
    ensures PostProcessStep(b)[k] == if k == Evento then Str(PostProcess(b)) else b[k]
  {
  }

  lemma DepartamentoStepAt(c: Record, k: Field)
    requires k in c
    ensures k in DepartamentoStep(c)
    ensures DepartamentoStep(c)[k] == if k == Departamento then Str(LimpiarDepartamento(c[k])) else c[k]
  {
  }

  /** Every field of a cleaned record is what `CleanField` says. */
  lemma CleanRecordAt(rec: Record, k: Field)
    requires k in rec
    ensures k in CleanRecord(rec) && CleanRecord(rec)[k] == CleanField(rec, k)
  {
    var a := CleanAids(rec, AidFields);
    CleanAidsAt(rec, k);
    CleanAidsAreInts(rec);
    EventoStepFacts(a);
    var d := DepartamentoStep(PostProcessStep(EventoStep(a)));
    MiddleStepsAt(a, k);
    CleanTextosAt(d, k);
    assert CleanRecord(rec) == CleanTextos(d, TextFields);
  }

  lemma CleanRecordAll(rec: Record)
    ensures CleanRecord(rec).Keys == rec.Keys
    ensures forall k :: k in rec ==> CleanRecord(rec)[k] == CleanField(rec, k)
  {
    CleanRecordKeys(rec);
    forall k | k in rec ensures CleanRecord(rec)[k] == CleanField(rec, k) {
      CleanRecordAt(rec, k);
    }
  }

  /** An aid quantity as the cleaned record holds it. */
  function CleanedAid(rec: Record, f: Field): int {
    if f in rec then LimpiarNumero(rec[f]) else 0
  }

  lemma CleanedAidOf(rec: Record, f: Field)
    requires IsAid(f)
    ensures Aid(CleanAids(rec, AidFields), f) == CleanedAid(rec, f)
  {
    if f in rec {
      CleanAidsAt(rec, f);
    } else {
      CleanAidsKeys(rec, AidFields);
    }
  }

  /** An event that `limpiar_evento` does not clean to `SIN EVENTO` is kept
      as cleaned, whatever the aid quantities. */
  lemma CleanEventoKept(rec: Record)
    requires Evento in rec && LimpiarEvento(rec[Evento]) != SinEvento
    ensures CleanEvento(rec) == LimpiarEvento(rec[Evento])
  {
    var a := CleanAids(rec, AidFields);
    CleanAidsAt(rec, Evento);
    CleanAidsAreInts(rec);
    EventoStepFacts(a);
    EventoNormalized(rec[Evento]);
    NormalizedLabel(LimpiarEvento(rec[Evento]));
  }

  /** With no negative quantity, a sum of aid quantities is zero exactly when
      each of them is. */
  lemma {:induction false} SumAidsZero(record: Record, fields: seq<Field>)
    requires forall i :: 0 <= i < |fields| ==> Aid(record, fields[i]) >= 0
    ensures SumAids(record, fields) == 0 <==>
            forall i :: 0 <= i < |fields| ==> Aid(record, fields[i]) == 0
  {
    if fields != [] {
      var init := fields[..|fields| - 1];
      SumAidsZero(record, init);
      AidAtMostSum(record, init, fields[0]);
    }
  }

  /** With no negative quantity, the total aid is zero exactly when each of
      the nine quantities is. */
  lemma TotalAidsZero(record: Record)
    requires NonNegativeAids(record)
    ensures TotalAids(record) == 0 <==> forall f :: IsAid(f) ==> Aid(record, f) == 0
  {
    AidFieldsAreAids();
    SumAidsZero(record, AidFields);
    forall f | IsAid(f) && Aid(record, f) != 0
      ensures exists i :: 0 <= i < |AidFields| && Aid(record, AidFields[i]) != 0
    {
      AidFieldsMembers(f);
      var i :| 0 <= i < |AidFields| && AidFields[i] == f;
    }
  }

  /** A record whose event cleans to `SIN EVENTO` (a missing one does), with
      no negative aid quantity, keeps `SIN EVENTO` exactly when it received no
      aid at all, and becomes `INUNDACION` whenever it received fibre-cement
      sheets. */
  lemma CleanEventoReclassified(rec: Record)
    requires Evento in rec && LimpiarEvento(rec[Evento]) == SinEvento
    requires forall f :: IsAid(f) ==> CleanedAid(rec, f) >= 0
    ensures CleanEvento(rec) == SinEvento <==> forall f :: IsAid(f) ==> CleanedAid(rec, f) == 0
    ensures CleanedAid(rec, ChapaFibrocemento) > 0 ==> CleanEvento(rec) == Inundacion
  {
    var a := CleanAids(rec, AidFields);
    CleanAidsAt(rec, Evento);
    CleanAidsAreInts(rec);
    EventoStepFacts(a);
    var b := EventoStep(a);
    assert b == a[Evento := Str(SinEvento)];
    SameAidsAfterEvento(a, Str(SinEvento));
    forall f | IsAid(f) ensures Aid(b, f) == CleanedAid(rec, f) {
      CleanedAidOf(rec, f);
    }
    ReclassifiedLabels();
    PostProcessWithoutAid(b);
    TotalAidsZero(b);
  }

  /** The aid loop of `limpiar_registro_completo`. */
  method LimpiarAyudas(registro: Record) returns (limpio: Record)
    ensures limpio == CleanAids(registro, AidFields)
    ensures limpio.Keys == registro.Keys
    ensures forall k :: k in registro ==>
      limpio[k] == if IsAid(k) then Int(LimpiarNumero(registro[k])) else registro[k]
  {
    limpio := registro;
    var i := 0;
    while i < |AidFields|
      invariant 0 <= i <= |AidFields|
      invariant CleanAids(limpio, AidFields[i..]) == CleanAids(registro, AidFields)
    {
      var campo := AidFields[i];
      assert AidFields[i..][1..] == AidFields[i + 1..];
      if campo in limpio {
        limpio := limpio[campo := Int(LimpiarNumero(limpio[campo]))];
      }
      i := i + 1;
    }
    assert AidFields[i..] == [];
    CleanAidsKeys(registro, AidFields);
    CleanAidsAll(registro);
  }

  /** The text loop of `limpiar_registro_completo`. */
  method LimpiarTextos(registro: Record) returns (limpio: Record)
    ensures limpio == CleanTextos(registro, TextFields)
    ensures limpio.Keys == registro.Keys
    ensures forall k :: k in registro ==>
      limpio[k] == if IsText(k) then Str(LimpiarTexto(registro[k])) else registro[k]
  {
    limpio := registro;
    var j := 0;
    while j < |TextFields|
      invariant 0 <= j <= |TextFields|
      invariant CleanTextos(limpio, TextFields[j..]) == CleanTextos(registro, TextFields)
    {
      var campo := TextFields[j];
      assert TextFields[j..][1..] == TextFields[j + 1..];
      if campo in limpio {
        limpio := limpio[campo := Str(LimpiarTexto(limpio[campo]))];
      }
      j := j + 1;
    }
    assert TextFields[j..] == [];
    CleanTextosKeys(registro, TextFields);
    CleanTextosAll(registro);
  }

  /** `limpiar_registro_completo`: copy the record, clean the aid fields, clean
      then post-process the event, clean the department and the texts. */
  method LimpiarRegistroCompleto(registro: Record) returns (limpio: Record)
    ensures limpio == CleanRecord(registro)
    ensures limpio.Keys == registro.Keys
    ensures forall k :: k in registro ==> limpio[k] == CleanField(registro, k)
  {
    limpio := LimpiarAyudas(registro);
    CleanAidsAreInts(registro);
    EventoStepFacts(limpio);
    if Evento in limpio {
      limpio := limpio[Evento := Str(LimpiarEvento(limpio[Evento]))];
    }
    if Evento in limpio {
      limpio := limpio[Evento := Str(PostProcess(limpio))];
    }
    if Departamento in limpio {
      limpio := limpio[Departamento := Str(LimpiarDepartamento(limpio[Departamento]))];
    }
    limpio := LimpiarTextos(limpio);
    CleanRecordAll(registro);
  }
}
