/** The field names of an `AsistenciaHumanitaria` record as the cleaners see
    them in a `dict`. The fields the cleaners touch are named constructors;
    every other key (`id`, `fecha`, ...) is `Other(name)`. */
module Fields {

  datatype Field =
    | KitB | KitA | ChapaFibrocemento | ChapaZinc | Colchones
    | Frazadas | Terciadas | Puntales | CarpasPlasticas
    | Evento | Departamento | Distrito | Localidad
    | Other(name: string)

  /** The dictionary key of a field. */
  function Name(f: Field): string {
    match f
    case KitB => "kit_b"
    case KitA => "kit_a"
    case ChapaFibrocemento => "chapa_fibrocemento"
    case ChapaZinc => "chapa_zinc"
    case Colchones => "colchones"
    case Frazadas => "frazadas"
    case Terciadas => "terciadas"
    case Puntales => "puntales"
    case CarpasPlasticas => "carpas_plasticas"
    case Evento => "evento"
    case Departamento => "departamento"
    case Distrito => "distrito"
    case Localidad => "localidad"
    case Other(n) => n
  }

  /** The keys with a constructor of their own. */
  const NamedKeys: set<string> := {
    "kit_b", "kit_a", "chapa_fibrocemento", "chapa_zinc", "colchones",
    "frazadas", "terciadas", "puntales", "carpas_plasticas",
    "evento", "departamento", "distrito", "localidad"
  }

  /** A field as it arises from a dictionary key: `Other` never carries a
      named key. */
  predicate ValidField(f: Field) {
    f.Other? ==> f.name !in NamedKeys
  }

  /** The field a dictionary key denotes. */
  function FromName(n: string): (f: Field)
    ensures ValidField(f) && Name(f) == n
  {
    match n
    case "kit_b" => KitB
    case "kit_a" => KitA
    case "chapa_fibrocemento" => ChapaFibrocemento
    case "chapa_zinc" => ChapaZinc
    case "colchones" => Colchones
    case "frazadas" => Frazadas
    case "terciadas" => Terciadas
    case "puntales" => Puntales
    case "carpas_plasticas" => CarpasPlasticas
    case "evento" => Evento
    case "departamento" => Departamento
    case "distrito" => Distrito
    case "localidad" => Localidad
    case _ => Other(n)
  }

  /** Keys and fields correspond one to one. */
  lemma NameRoundTrip(f: Field)
    requires ValidField(f)
    ensures FromName(Name(f)) == f
  {
  }

  lemma NameInjective(f: Field, g: Field)
    requires ValidField(f) && ValidField(g) && Name(f) == Name(g)
    ensures f == g
  {
    NameRoundTrip(f);
    NameRoundTrip(g);
  }

  /** `aid_fields` of the cleaner, in its order. */
  const AidFields: seq<Field> := [
    KitB, KitA, ChapaFibrocemento, ChapaZinc, Colchones,
    Frazadas, Terciadas, Puntales, CarpasPlasticas
  ]

  /** The same nine fields as dictionary keys. */
  lemma AidFieldNames()
    ensures |AidFields| == 9
    ensures forall i, j :: 0 <= i < j < |AidFields| ==> AidFields[i] != AidFields[j]
    ensures seq(|AidFields|, i requires 0 <= i < |AidFields| => Name(AidFields[i])) ==
      ["kit_b", "kit_a", "chapa_fibrocemento", "chapa_zinc", "colchones",
       "frazadas", "terciadas", "puntales", "carpas_plasticas"]
  {
  }

  lemma AidFieldsAreAids()
    ensures forall i :: 0 <= i < |AidFields| ==> IsAid(AidFields[i])
  {
  }

  /** The free-text fields, cleaned with `limpiar_texto`. */
  const TextFields: seq<Field> := [Distrito, Localidad]

  /** Membership in `AidFields`, decided on the constructor. */
  predicate IsAid(f: Field) {
    f.KitB? || f.KitA? || f.ChapaFibrocemento? || f.ChapaZinc? || f.Colchones? ||
    f.Frazadas? || f.Terciadas? || f.Puntales? || f.CarpasPlasticas?
  }

  /** Membership in `TextFields`, decided on the constructor. */
  predicate IsText(f: Field) {
    f.Distrito? || f.Localidad?
  }

  lemma AidFieldsMembers(f: Field)
    ensures f in AidFields <==> IsAid(f)
  {
  }

  lemma TextFieldsMembers(f: Field)
    ensures f in TextFields <==> IsText(f)
    ensures TextFields[0] != TextFields[1]
  {
  }
}
