/** The two alias tables of the cleaners, `departamentos_estandarizacion` and
    `eventos_estandarizacion`, as `dict.get` lookups: `Some(name)` for a key of
    the table and `None` for any other string. The batch command carries its
    own copy of both tables, entry for entry the same, so they are defined once
    here. Keys are listed by length, which keeps the lookups cheap to reason
    about. */
module Tables {
  import opened Wrappers
  import opened Text

  /** Department aliases: typos, missing accents, abbreviations and entries
      naming several departments, each mapped to one department name. */
  function DeptAlias(key: string): Option<string> {
    match |key|
    case 3 =>
      (match key
       case "ITA" => Some("ITÁ")
       case _ => None)
    case 6 =>
      (match key
       case "GUAIRA" => Some("GUAIRÁ")
       case "GUAIRÀ" => Some("GUAIRÁ")
       case "GUIARA" => Some("GUAIRÁ")
       case "ITAPUA" => Some("ITAPÚA")
       case "ITAPÙA" => Some("ITAPÚA")
       case "varios" => Some("VARIOS DEPARTAMENTOS")
       case _ => None)
    case 7 =>
      (match key
       case "ÑEMBUCU" => Some("ÑEEMBUCÚ")
       case "ALTO PY" => Some("ALTO PARANÁ")
       case "CAAZAPA" => Some("CAAZAPÁ")
       case "CAAZAPÀ" => Some("CAAZAPÁ")
       case "central" => Some("CENTRAL")
       case "ITAUGUA" => Some("ITAUGUÁ")
       case "CAACUPÈ" => Some("CAACUPÉ")
       case _ => None)
    case 8 =>
      (match key
       case "ÑEEMBUCU" => Some("ÑEEMBUCÚ")
       case "ÑEEMBUCÙ" => Some("ÑEEMBUCÚ")
       case "ALTO PNÀ" => Some("ALTO PARANÁ")
       case "ALTO PNÁ" => Some("ALTO PARANÁ")
       case "BOQUERÒN" => Some("BOQUERON")
       case "BOQUERÓN" => Some("BOQUERON")
       case "CAAGUAZU" => Some("CAAGUAZÚ")
       case "CAAGUAZÙ" => Some("CAAGUAZÚ")
       case "ASUNCION" => Some("ASUNCIÓN")
       case _ => None)
    case 9 =>
      (match key
       case "CANINDEYU" => Some("CANINDEYÚ")
       case "CANINDEYÙ" => Some("CANINDEYÚ")
       case "PARAGUARI" => Some("PARAGUARÍ")
       case "PARAGUARÌ" => Some("PARAGUARÍ")
       case "PDTE HYES" => Some("PDTE. HAYES")
       case "PTE HAYES" => Some("PDTE. HAYES")
       case "VILLARICA" => Some("VILLARRICA")
       case _ => None)
    case 10 =>
      (match key
       case "CAAG/CANIN" => Some("CAAGUAZÚ")
       case "CENTR-CORD" => Some("CENTRAL")
       case "CONCEPCION" => Some("CONCEPCIÓN")
       case "CONCEPCIÒN" => Some("CONCEPCIÓN")
       case "PDTE HAYES" => Some("PDTE. HAYES")
       case "PTE. HAYES" => Some("PDTE. HAYES")
       case "Pdte Hayes" => Some("PDTE. HAYES")
       case "PDTE.HAYES" => Some("PDTE. HAYES")
       case _ => None)
    case 11 =>
      (match key
       case "ALTO PARANA" => Some("ALTO PARANÁ")
       case "ALTO PARANÀ" => Some("ALTO PARANÁ")
       case "CAAG-CANIND" => Some("CAAGUAZÚ")
       case "CENTRAL/CAP" => Some("CENTRAL")
       case "CENTRAL/COR" => Some("CENTRAL")
       case "COORDILLERA" => Some("CORDILLERA")
       case "Pdte. Hayes" => Some("PDTE. HAYES")
       case "VARIOS DEP." => Some("VARIOS DEPARTAMENTOS")
       case "ASOC MUSICO" => Some("VARIOS DEPARTAMENTOS")
       case "CNEL OVIEDO" => Some("CORONEL OVIEDO")
       case _ => None)
    case 12 =>
      (match key
       case "CAAG/CANIND." => Some("CAAGUAZÚ")
       case "CENT/CORDILL" => Some("CENTRAL")
       case "CENTRAL/CORD" => Some("CENTRAL")
       case "CORD/S.PEDRO" => Some("CORDILLERA")
       case "S.PEDRO/CAN." => Some("SAN PEDRO")
       case "VARIOS DPTS." => Some("VARIOS DEPARTAMENTOS")
       case _ => None)
    case 13 =>
      (match key
       case "CENTRAL/CORD." => Some("CENTRAL")
       case "CORD./CENTRAL" => Some("CORDILLERA")
       case "VARIOS DPTOS." => Some("VARIOS DEPARTAMENTOS")
       case _ => None)
    case 14 =>
      (match key
       case "CENTRAL/PARAG." => Some("CENTRAL")
       case _ => None)
    case 15 =>
      (match key
       case "CENTRAL/CAPITAL" => Some("CENTRAL")
       case _ => None)
    case 16 =>
      (match key
       case "CAAZAPA - Guaira" => Some("CAAZAPÁ")
       case "Guaira - Caazapa" => Some("GUAIRÁ")
       case "ITAPUA- CAAGUAZU" => Some("ITAPÚA")
       case _ => None)
    case 17 =>
      (match key
       case "CAAGUAZU/MISIONES" => Some("CAAGUAZÚ")
       case "CENTRAL/CORDILLER" => Some("CENTRAL")
       case "CORDILLERACAACUPÈ" => Some("CORDILLERA")
       case "MISIONES YABEBYRY" => Some("MISIONES")
       case _ => None)
    case 18 =>
      (match key
       case "CENTRAL-CORDILLERA" => Some("CENTRAL")
       case "CENTRAL/CORDILLERA" => Some("CENTRAL")
       case "Paraguari - Guaira" => Some("PARAGUARÍ")
       case "SAN PEDRO-CAAGUAZU" => Some("SAN PEDRO")
       case "SAN PEDRO/ AMAMBAY" => Some("SAN PEDRO")
       case _ => None)
    case 19 =>
      (match key
       case "PARAGUARI PARAGUARI" => Some("PARAGUARÍ")
       case _ => None)
    case 20 =>
      (match key
       case "CAAGUAZU - Canindeyu" => Some("CAAGUAZÚ")
       case "CAAGUAZU y Canindeyu" => Some("CAAGUAZÚ")
       case "Canindeyu - Caaguazu" => Some("CANINDEYÚ")
       case "SAN PEDRO/ CANINDEYU" => Some("SAN PEDRO")
       case _ => None)
    case 21 =>
      (match key
       case "CAAGUAZU- ALTO PARANA" => Some("CAAGUAZÚ")
       case "Canindeyu y San Pedro" => Some("CANINDEYÚ")
       case "San Pedro - Canindeyu" => Some("SAN PEDRO")
       case _ => None)
    case 22 =>
      (match key
       case "CORDILLERA Y SAN PEDRO" => Some("CORDILLERA")
       case _ => None)
    case 25 =>
      (match key
       case "CORDILLERA ARROYOS Y EST." => Some("CORDILLERA")
       case _ => None)
    case 27 =>
      (match key
       case "CAAGUAZU-Guaira y San Pedro" => Some("CAAGUAZÚ")
       case "PDTE HAYES S.PIRI-4 DE MAYO" => Some("PDTE. HAYES")
       case "REGION ORIENTAL/ OCCIDENTAL" => Some("VARIOS DEPARTAMENTOS")
       case _ => None)
    case 31 =>
      (match key
       case "CAAGUAZU, Canindeyu y San Pedro" => Some("CAAGUAZÚ")
       case "CAAGUAZU, San Pedro y Canindeyu" => Some("CAAGUAZÚ")
       case _ => None)
    case _ => None
  }

  /** Event aliases: abbreviations and typos mapped to an event category. */
  function EventAlias(key: string): Option<string> {
    match |key|
    case 4 =>
      (match key
       case "COVI" => Some("COVID")
       case "EDAN" => Some("EVALUACION DE DAÑOS")
       case _ => None)
    case 5 =>
      (match key
       case "PREP." => Some("PREPOSICIONAMIENTO")
       case "NIÑEZ" => Some("ASISTENCIA")
       case "DONAC" => Some("DONACION")
       case "MINGA" => Some("TRABAJO COMUNITARIO")
       case _ => None)
    case 6 =>
      (match key
       case "ASIST." => Some("ASISTENCIA")
       case "INCEND" => Some("INCENDIO")
       case "OLLA P" => Some("OLLA POPULAR")
       case "OLLAP." => Some("OLLA POPULAR")
       case "PREPOS" => Some("PREPOSICIONAMIENTO")
       case "INDERT" => Some("EVENTO INSTITUCIONAL")
       case "DONAC." => Some("DONACION")
       case _ => None)
    case 7 =>
      (match key
       case "OLLA P." => Some("OLLA POPULAR")
       case "PREPOS." => Some("PREPOSICIONAMIENTO")
       case _ => None)
    case 8 =>
      (match key
       case "COVID 19" => Some("COVID")
       case "APOY.LOG" => Some("APOYO LOGISTICO")
       case "APOY LOG" => Some("APOYO LOGISTICO")
       case "DERRUMBE" => Some("DERRUMBE")
       case "INUNDAC." => Some("INUNDACION")
       case "OLLA POP" => Some("OLLA POPULAR")
       case "OP.ÑEÑUA" => Some("OPERATIVO ÑEÑUA")
       case "DONACIÒN" => Some("DONACION")
       case "DEVOLVIO" => Some("DEVOLUCION")
       case "PRESTAMO" => Some("PRESTAMO")
       case _ => None)
    case 9 =>
      (match key
       case "ALB.COVID" => Some("COVID")
       case "APOY INST" => Some("APOYO INSTITUCIONAL")
       case "ASISTECIA" => Some("ASISTENCIA")
       case "INCCENDIO" => Some("INCENDIO")
       case "OLLA POP." => Some("OLLA POPULAR")
       case "OP. ÑEÑUA" => Some("OPERATIVO ÑEÑUA")
       case "PREPOSIC." => Some("PREPOSICIONAMIENTO")
       case "ÑANGARECO" => Some("AYUDA SOLIDARIA")
       case "ÑANGAREKO" => Some("AYUDA SOLIDARIA")
       case _ => None)
    case 10 =>
      (match key
       case "APOYO INT." => Some("APOYO INSTITUCIONAL")
       case "APOY.INST," => Some("APOYO INSTITUCIONAL")
       case "APOYO LOG." => Some("APOYO LOGISTICO")
       case "ASISTANCIA" => Some("ASISTENCIA")
       case "LNUNDACION" => Some("INUNDACION")
       case "OLLA POPUL" => Some("OLLA POPULAR")
       case "REPARACION" => Some("REPARACION")
       case "SIN_EVENTO" => Some("SIN EVENTO")
       case _ => None)
    case 11 =>
      (match key
       case "ALBER.COVID" => Some("COVID")
       case "APOYO INST." => Some("APOYO INSTITUCIONAL")
       case "APOY. INST." => Some("APOYO INSTITUCIONAL")
       case "ASIASTENCIA" => Some("ASISTENCIA")
       case "ASISTENCIAS" => Some("ASISTENCIA")
       case "SEQ./INUND." => Some("INUNDACION")
       case "OP INVIERNO" => Some("OPERATIVO INVIERNO")
       case "OP.INVIERNO" => Some("OPERATIVO INVIERNO")
       case "OPER. ÑEÑUA" => Some("OPERATIVO ÑEÑUA")
       case "VAC.ARATIRI" => Some("COVID")
       case "DGRR 027/22" => Some("EVENTO INSTITUCIONAL")
       case "DGRR 028/22" => Some("EVENTO INSTITUCIONAL")
       case "REFUGIO SEN" => Some("ALBERGUE")
       case _ => None)
    case 12 =>
      (match key
       case "ALBERG.COVID" => Some("COVID")
       case "COVI 19 OLL." => Some("COVID")
       case "INC.FORESTAL" => Some("INCENDIO")
       case "INUNDAIÓN S." => Some("INUNDACION")
       case "OLLA POPILAR" => Some("OLLA POPULAR")
       case "OLLA POPOLAR" => Some("OLLA POPULAR")
       case "OP. INVIERNO" => Some("OPERATIVO INVIERNO")
       case "OPER.INVIERN" => Some("OPERATIVO INVIERNO")
       case "PREPOSICION." => Some("PREPOSICIONAMIENTO")
       case _ => None)
    case 13 =>
      (match key
       case "APOYO INSTIT." => Some("APOYO INSTITUCIONAL")
       case "SEQ. E INUND." => Some("INUNDACION")
       case "SEQUIA-INUND." => Some("SEQUIA")
       case "OPER.INVIERNO" => Some("OPERATIVO INVIERNO")
       case "REPOSIC.MATER" => Some("REPOSICION DE MATERIALES")
       case "MUNICIPALIDAD" => Some("EVENTO INSTITUCIONAL")
       case "INERAM(MINGA)" => Some("TRABAJO COMUNITARIO")
       case _ => None)
    case 14 =>
      (match key
       case "APOY.INSTITUC." => Some("APOYO INSTITUCIONAL")
       case "AS.DE LA CORTE" => Some("ASISTENCIA INSTITUCIONAL")
       case "INCEND. DOMIC." => Some("INCENDIO")
       case "OPERATIVO INV." => Some("OPERATIVO INVIERNO")
       case "REPOSIC.MATER." => Some("REPOSICION DE MATERIALES")
       case _ => None)
    case 15 =>
      (match key
       case "REP.DE MATERIAL" => Some("REPOSICION DE MATERIALES")
       case "VACUNATORIO SND" => Some("COVID")
       case _ => None)
    case 16 =>
      (match key
       case "P/ STOCK DEL COE" => Some("PREPOSICIONAMIENTO")
       case "REABASTECIMIENTO" => Some("REPOSICION DE MATERIALES")
       case "TEMPORAL CENTRAL" => Some("TEMPORAL")
       case "TRASLADO INTERNO" => Some("TRASLADO")
       case _ => None)
    case 17 =>
      (match key
       case "INUNDACION SUBITA" => Some("INUNDACION")
       case "OPERATIVO CAACUPE" => Some("OPERATIVO ESPECIAL")
       case "OPERATIVO RETORNO" => Some("OPERATIVO ESPECIAL")
       case "INDI MBYA GUARANI" => Some("INDI")
       case "ASISTENCIA SOCIAL" => Some("ASISTENCIA")
       case _ => None)
    case 18 =>
      (match key
       case "APOYO INTITUCIONAL" => Some("APOYO INSTITUCIONAL")
       case "APOYO INSITUCIONAL" => Some("APOYO INSTITUCIONAL")
       case "APOY.INST.COVID 19" => Some("COVID")
       case "APOY.INSTITUCIONAL" => Some("APOYO INSTITUCIONAL")
       case "APYO INSTITUCIONAL" => Some("APOYO INSTITUCIONAL")
       case "OLLA POPULAR COVID" => Some("OLLA POPULAR COVID")
       case _ => None)
    case 19 =>
      (match key
       case "APAYO INSTITUCIONAL" => Some("APOYO INSTITUCIONAL")
       case "APOYO INSRITUCIOMAL" => Some("APOYO INSTITUCIONAL")
       case "APOYO INSTIYUCIONAL" => Some("APOYO INSTITUCIONAL")
       case "ASISTENCIA TEMPORAL" => Some("ASISTENCIA TEMPORAL")
       case "PRE POSICIONAMIENTO" => Some("PREPOSICIONAMIENTO")
       case "REPARACION DE OBRAS" => Some("REPARACION")
       case "EVALUACION DE DAÑOS" => Some("EVALUACION DE DAÑOS")
       case _ => None)
    case 20 =>
      (match key
       case "APOYO INSTITUCIOINAL" => Some("APOYO INSTITUCIONAL")
       case "APOYO INSTITUCIONAAL" => Some("APOYO INSTITUCIONAL")
       case "APOYO LOGISTICO INDI" => Some("INDI")
       case _ => None)
    case 21 =>
      (match key
       case "INCENDIO DOMICILIARIO" => Some("INCENDIO")
       case _ => None)
    case 22 =>
      (match key
       case "ASISTENCIA DE LA CORTE" => Some("ASISTENCIA INSTITUCIONAL")
       case "REPARACION DE BAÑADERA" => Some("REPARACION")
       case "ASISTENCIA COMUNITARIA" => Some("ASISTENCIA")
       case _ => None)
    case 23 =>
      (match key
       case "PROVISION DE MATERIALES" => Some("REPOSICION DE MATERIALES")
       case _ => None)
    case 24 =>
      (match key
       case "APOYO INSTITUCIONAL INDI" => Some("INDI")
       case _ => None)
    case 25 =>
      (match key
       case "APOYO INSTITUCIONAL COVID" => Some("COVID")
       case "EVENTO CLIMATICO TEMPORAL" => Some("TEMPORAL")
       case _ => None)
    case 26 =>
      (match key
       case "APOYO LOGISTICO \"TEMPORAL\"" => Some("TEMPORAL")
       case _ => None)
    case 29 =>
      (match key
       case "ASISTENCIA COMUNIDAD INDIGENA" => Some("INDI")
       case _ => None)
    case 34 =>
      (match key
       case "ASISTENCIA A COMUNIDADES INDIGENAS" => Some("INDI")
       case _ => None)
    case 36 =>
      (match key
       case "ASISTENCIA SECRETARIA DE REPATRIADOS" => Some("ASISTENCIA INSTITUCIONAL")
       case _ => None)
    case 39 =>
      (match key
       case "INUNDACION \" DECLARACION DE EMERGENCIA\"" => Some("INUNDACION")
       case _ => None)
    case _ => None
  }

  // ---------------------------------------------------------------------------
  // What the tables produce

  /** A name as the cleaners emit it: non-empty, no lower-case letter, no
      hyphen and no whitespace at either end. */
  predicate Canonical(v: string) {
    v != [] && !IsSpace(v[0]) && !IsSpace(v[|v| - 1]) &&
    forall i :: 0 <= i < |v| ==> !IsLowerChar(v[i]) && v[i] != '-'
  }

  /** The 22 department names the table maps to. */
  const DeptNames: set<string> := {
    "ÑEEMBUCÚ", "ALTO PARANÁ", "BOQUERON", "CAAGUAZÚ", "CAAZAPÁ", "CANINDEYÚ",
    "CENTRAL", "CONCEPCIÓN", "CORDILLERA", "GUAIRÁ", "ITAPÚA", "MISIONES",
    "PARAGUARÍ", "PDTE. HAYES", "SAN PEDRO", "VARIOS DEPARTAMENTOS",
    "CORONEL OVIEDO", "ITÁ", "ITAUGUÁ", "VILLARRICA", "ASUNCIÓN", "CAACUPÉ"
  }

  /** The 30 event categories the table maps to. */
  const EventNames: set<string> := {
    "COVID", "APOYO INSTITUCIONAL", "INDI", "APOYO LOGISTICO", "TEMPORAL",
    "ASISTENCIA", "ASISTENCIA INSTITUCIONAL", "ASISTENCIA TEMPORAL", "INCENDIO",
    "DERRUMBE", "INUNDACION", "SEQUIA", "OLLA POPULAR", "OLLA POPULAR COVID",
    "OPERATIVO INVIERNO", "OPERATIVO ÑEÑUA", "OPERATIVO ESPECIAL",
    "PREPOSICIONAMIENTO", "REPOSICION DE MATERIALES", "REPARACION",
    "EVENTO INSTITUCIONAL", "DONACION", "EVALUACION DE DAÑOS", "TRABAJO COMUNITARIO",
    "AYUDA SOLIDARIA", "SIN EVENTO", "DEVOLUCION", "PRESTAMO", "ALBERGUE",
    "TRASLADO"
  }

  lemma DeptAliasRange(key: string)
    ensures DeptAlias(key).Some? ==> DeptAlias(key).value in DeptNames
  {
    if |key| <= 12 { DeptAliasRangeShort(key); } else { DeptAliasRangeLong(key); }
  }

  lemma DeptAliasRangeShort(key: string)
    requires |key| <= 12
    ensures DeptAlias(key).Some? ==> DeptAlias(key).value in DeptNames
  {
  }

  lemma DeptAliasRangeLong(key: string)
    requires |key| > 12
    ensures DeptAlias(key).Some? ==> DeptAlias(key).value in DeptNames
  {
  }

  /** No department name is itself a key of the table. */
  lemma DeptNamesNotKeys(v: string)
    requires v in DeptNames
    ensures DeptAlias(v) == None
  {
  }

  lemma DeptNamesCanonical(v: string)
    requires v in DeptNames
    ensures Canonical(v)
  {
    if |v| <= 9 {
      ShortDeptNamesCanonical(v);
    } else {
      LongDeptNamesCanonical(v);
    }
  }

  lemma ShortDeptNamesCanonical(v: string)
    requires v in DeptNames && |v| <= 9
    ensures Canonical(v)
  {
  }

  lemma LongDeptNamesCanonical(v: string)
    requires v in DeptNames && |v| > 9
    ensures Canonical(v)
  {
  }

  lemma EventAliasRange(key: string)
    ensures EventAlias(key).Some? ==> EventAlias(key).value in EventNames
  {
    if |key| <= 12 { EventAliasRangeShort(key); } else { EventAliasRangeLong(key); }
  }

  lemma EventAliasRangeShort(key: string)
    requires |key| <= 12
    ensures EventAlias(key).Some? ==> EventAlias(key).value in EventNames
  {
  }

  lemma EventAliasRangeLong(key: string)
    requires |key| > 12
    ensures EventAlias(key).Some? ==> EventAlias(key).value in EventNames
  {
  }

  /** An event category is either not a key of the table or a key that maps to
      itself (`DERRUMBE`, `PRESTAMO`, `REPARACION`, ...). */
  lemma EventNamesFixed(v: string)
    requires v in EventNames
    ensures EventAlias(v) == None || EventAlias(v) == Some(v)
  {
  }

  lemma EventNamesCanonical(v: string)
    requires v in EventNames
    ensures Canonical(v)
  {
    if |v| <= 12 {
      ShortEventNamesCanonical(v);
    } else if |v| <= 18 {
      MiddleEventNamesCanonical(v);
    } else {
      LongEventNamesCanonical(v);
    }
  }

  lemma ShortEventNamesCanonical(v: string)
    requires v in EventNames && |v| <= 12
    ensures Canonical(v)
  {
  }

  lemma MiddleEventNamesCanonical(v: string)
    requires v in EventNames && 12 < |v| <= 18
    ensures Canonical(v)
  {
  }

  lemma LongEventNamesCanonical(v: string)
    requires v in EventNames && |v| > 18
    ensures Canonical(v)
  {
  }

  /** A department the table produces is canonical, and looking it up again
      finds nothing: the lookup is applied at most once. */
  lemma DeptAliasValue(key: string)
    requires DeptAlias(key).Some?
    ensures Canonical(DeptAlias(key).value)
    ensures DeptAlias(DeptAlias(key).value) == None
  {
    DeptAliasRange(key);
    DeptNamesNotKeys(DeptAlias(key).value);
    DeptNamesCanonical(DeptAlias(key).value);
  }

  /** An event the table produces is canonical, and looking it up again gives
      either nothing or the same event. */
  lemma EventAliasValue(key: string)
    requires EventAlias(key).Some?
    ensures Canonical(EventAlias(key).value)
    ensures EventAlias(EventAlias(key).value).GetOr(EventAlias(key).value) == EventAlias(key).value
  {
    EventAliasRange(key);
    EventNamesFixed(EventAlias(key).value);
    EventNamesCanonical(EventAlias(key).value);
  }

  // ---------------------------------------------------------------------------
  // Keys the cleaners can never look up

  /** Department keys written with lower-case letters. The cleaners upper-case
      a value before the lookup, so these entries are never used. */
  const MixedCaseDeptKeys: set<string> := {
    "CAAGUAZU - Canindeyu", "CAAGUAZU y Canindeyu",
    "CAAGUAZU, Canindeyu y San Pedro", "CAAGUAZU, San Pedro y Canindeyu",
    "CAAGUAZU-Guaira y San Pedro", "CAAZAPA - Guaira", "Canindeyu - Caaguazu",
    "Canindeyu y San Pedro", "central", "Guaira - Caazapa", "Paraguari - Guaira",
    "Pdte Hayes", "Pdte. Hayes", "San Pedro - Canindeyu", "varios"
  }

  lemma MixedCaseDeptKeysUnreachable(s: string, k: string)
    requires k in MixedCaseDeptKeys
    ensures DeptAlias(k).Some? && Upper(s) != k
  {
    MixedCaseDeptKeysAreKeys(k);
    MixedCaseDeptKeysHaveLower(k);
    UpperNeverMixedCase(s, k);
  }

  lemma MixedCaseDeptKeysAreKeys(k: string)
    requires k in MixedCaseDeptKeys
    ensures DeptAlias(k).Some?
  {
  }

  lemma MixedCaseDeptKeysHaveLower(k: string)
    requires k in MixedCaseDeptKeys
    ensures HasLower(k)
  {
    if |k| <= 18 {
      ShortMixedCaseDeptKeysHaveLower(k);
    } else {
      LongMixedCaseDeptKeysHaveLower(k);
    }
  }

  lemma ShortMixedCaseDeptKeysHaveLower(k: string)
    requires k in MixedCaseDeptKeys && |k| <= 18
    ensures HasLower(k)
  {
    if k == "CAAZAPA - Guaira" {
      assert IsLowerChar(k[11]);
    } else if k == "central" {
      assert IsLowerChar(k[0]);
    } else if k == "Guaira - Caazapa" {
      assert IsLowerChar(k[1]);
    } else if k == "Paraguari - Guaira" {
      assert IsLowerChar(k[1]);
    } else if k == "Pdte Hayes" {
      assert IsLowerChar(k[1]);
    } else if k == "Pdte. Hayes" {
      assert IsLowerChar(k[1]);
    } else if k == "varios" {
      assert IsLowerChar(k[0]);
    }
  }

  lemma LongMixedCaseDeptKeysHaveLower(k: string)
    requires k in MixedCaseDeptKeys && |k| > 18
    ensures HasLower(k)
  {
    if k == "CAAGUAZU - Canindeyu" {
      assert IsLowerChar(k[12]);
    } else if k == "CAAGUAZU y Canindeyu" {
      assert IsLowerChar(k[9]);
    } else if k == "CAAGUAZU, Canindeyu y San Pedro" {
      assert IsLowerChar(k[11]);
    } else if k == "CAAGUAZU, San Pedro y Canindeyu" {
      assert IsLowerChar(k[11]);
    } else if k == "CAAGUAZU-Guaira y San Pedro" {
      assert IsLowerChar(k[10]);
    } else if k == "Canindeyu - Caaguazu" {
      assert IsLowerChar(k[1]);
    } else if k == "Canindeyu y San Pedro" {
      assert IsLowerChar(k[1]);
    } else if k == "San Pedro - Canindeyu" {
      assert IsLowerChar(k[1]);
    }
  }
}
