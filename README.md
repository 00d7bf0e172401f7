# Humanitarian-aid dashboard: data cleaning, in Dafny

This project models the core of a Django dashboard. The dashboard reports
deliveries of humanitarian aid (`AsistenciaHumanitaria`: a date, a locality,
a district, a department, an event and nine aid quantities). It then proves
properties of that model.

The core is the cleaning of those records. It happens in two places, each
with its own rules:

- `DataCleaner` (`dashboard/utils/data_cleaner.py`) cleans one record at a
  time for the views.
  - Its field normalisers turn aid quantities into integers and look
    departments and events up in standardisation tables. They title-case
    free text.
  - `post_process_eventos_with_aids` reclassifies a `SIN EVENTO` record from
    its aid quantities.
  - `limpiar_registro_completo` applies all of them to a copy of a `dict`.
- The `limpiar_datos` management command cleans the whole table as a
  DataFrame.
  - Each step is a pass over the rows.
  - It deletes the `SIN EVENTO` rows without aid and saves the other rows
    back.

The model also covers:

- the parts of `dashboard/views.py` that hold logic:
  - the module cache of the cleaned frame and of the charts (`_cache`), with
    the clock as a parameter;
  - the order in which the frame path composes the cleaners;
  - the folding of events under 3% into one `OTROS` slice;
  - the fallback coordinates of the map;
  - the paginated records table;
- the model's own `total_ayudas` and aggregate statistics.

Modules, one per file:

| file | module | what it holds |
|---|---|---|
| `wrappers.dfy` | `Wrappers` | `Option` and `Result` |
| `secuencias.dfy` | `Secuencias` | sums and maps over sequences |
| `text.dfy` | `Text` | `strip`, `upper`, `title`, `split('-')[0]` |
| `values.dfy` | `PyValues` | Python values, `pd.isna`, `str`, `int(float(...))`, ISO dates |
| `fields.dfy` | `Fields` | the `dict` keys of a record |
| `tables.dfy` | `Tables` | the department and event standardisation tables |
| `data_cleaner.dfy` | `DataCleaner` | `DataCleaner` |
| `limpiar_datos.dfy` | `LimpiarDatos` | the `limpiar_datos` command, steps 2 to 5 and the save |
| `models.dfy` | `Models` | `AsistenciaHumanitaria` |
| `views.dfy` | `Views` | the view logic listed above |

## What the proofs establish

**Each normaliser.**
- Each one's result range is proved: a table value, the record's own key, or
  a sentinel.
- Each normaliser is idempotent, with one exception: a blank result turns
  into the sentinel on a second pass.
- The department and event keys are upper-case and stripped.
- `limpiar_numero` reads back the decimal text of any integer. On a decimal
  string it truncates toward zero, and it gives 0 for any text outside the
  plain decimal grammar.

**The reclassification.**
- It only changes `SIN EVENTO` records, into `INUNDACION`, `TEMPORAL`,
  `ASISTENCIA` or `SIN EVENTO`.
- It is idempotent.
- With non-negative aid, a record stays `SIN EVENTO` exactly when it has no
  aid.

**Whole-record cleaning.** `limpiar_registro_completo` keeps every key.
Each field ends up as its own cleaner gives it.

**The command.**
- It deletes exactly the ids of the rows its rule selects.
- With distinct ids, it saves exactly the other rows, each through every
  step.
- With non-negative aid, no saved row is `SIN EVENTO`.
- Its rules are compared with `DataCleaner`'s, field by field. Outside the
  null-like inputs the two rules agree. On some of those the command gives
  its own sentinel (`SIN_DEPARTAMENTO`, `SIN EVENTO`, `Sin Especificar`).
- For the reclassification, the two disagree on the rows with fibre-cement
  or zinc sheets: there the command's last overwrite wins with `ASISTENCIA`.

**The dashboard frame.** The frame path (`views.py` 70-78) runs
`limpiar_texto` before `limpiar_evento`. It agrees with
`limpiar_registro_completo` on every field, with two exceptions on the event:
- a missing event becomes `SIN ESPECIFICAR`, which is never reclassified;
- a blank event becomes `SIN EVENTO` or a reclassified label, where the
  per-record path gives the empty string.

**The `OTROS` folding.**
- It keeps the total.
- It keeps every event at or above 3%, in order.
- It appends one `OTROS` slice exactly when some event is under 3%.

**The table.**
- Over one fixed order of the records, every record appears on exactly one page.
- `total_pages` is the least page count that covers every record.
- A request fails exactly when `per_page` is 0 or a slice bound is negative.

**Two dead table entries.** Both standardisation tables hold keys the
cleaners can never look up:
- the department keys with lower-case letters (`'central'`, `'Pdte Hayes'`,
  ...), because the key is upper-cased first;
- the event key `'SEQUIA-INUND.'`, because the key is cut at the first
  hyphen first.

## Model

| member | source | states |
|---|---|---|
| Text.UpperChar | dashboard/utils/data_cleaner.py:60 | an upper-cased character is never lower-case and keeps whitespace and casedness |
| Text.LowerChar | dashboard/utils/data_cleaner.py:77 | a lower-cased character is never upper-case, keeps whitespace and casedness, and upper-cases as the original does |
| Text.Upper | dashboard/utils/data_cleaner.py:60 | `upper()` keeps the length and upper-cases every character |
| Text.Title | dashboard/utils/data_cleaner.py:77 | `title()` keeps the length, lower-cases a character after a cased one and upper-cases the others |
| Text.UpperIdempotent | dashboard/utils/data_cleaner.py:60 | upper-casing twice is upper-casing once |
| Text.UpperHasNoLower | dashboard/utils/data_cleaner.py:60 | an upper-cased string has no lower-case letter |
| Text.UpperNeverMixedCase | dashboard/utils/data_cleaner.py:60-61 | no upper-cased string equals a key with a lower-case letter |
| Text.UpperOfNoLower | dashboard/utils/data_cleaner.py:60 | upper-casing a string without lower-case letters changes nothing |
| Text.UpperNoHyphen | dashboard/utils/data_cleaner.py:69 | upper-casing introduces no hyphen |
| Text.UpperConcat | dashboard/utils/data_cleaner.py:60 | upper-casing distributes over concatenation |
| Text.UpperOfTitle | dashboard/views.py:74 | upper-casing after `title()` is upper-casing |
| Text.StripLeftShape | dashboard/utils/data_cleaner.py:60 | the left strip is a suffix, and only whitespace was removed, up to a non-space |
| Text.StripRightShape | dashboard/utils/data_cleaner.py:60 | the right strip is a prefix, and only whitespace was removed, back to a non-space |
| Text.StripLeftOfNonSpace | dashboard/utils/data_cleaner.py:60 | a string that starts with a non-space is not changed by the left strip |
| Text.StripRightOfNonSpace | dashboard/utils/data_cleaner.py:60 | a string that ends with a non-space is not changed by the right strip |
| Text.StripShape | dashboard/utils/data_cleaner.py:60 | `strip()` gives a stripped infix with only whitespace around it |
| Text.StripAllSpace | dashboard/utils/data_cleaner.py:77 | a whitespace-only string strips to the empty string |
| Text.StripKeepsChars | dashboard/utils/data_cleaner.py:60 | every character of the stripped string is in the original |
| Text.StripOfStripped | dashboard/utils/data_cleaner.py:60 | stripping a stripped string changes nothing |
| Text.StripIdempotent | dashboard/utils/data_cleaner.py:60 | stripping twice is stripping once |
| Text.StripLeftAfterSpaces | dashboard/utils/data_cleaner.py:60 | leading whitespace does not change the left strip |
| Text.StripRightBeforeSpaces | dashboard/utils/data_cleaner.py:60 | trailing whitespace does not change the right strip |
| Text.StripLeftUpper | dashboard/utils/data_cleaner.py:60 | the left strip commutes with upper-casing |
| Text.StripRightUpper | dashboard/utils/data_cleaner.py:60 | the right strip commutes with upper-casing |
| Text.StripUpper | dashboard/management/commands/limpiar_datos.py:93 | `strip()` commutes with `upper()`, so both orders of the two give the same key |
| Text.TitleKeepsStripped | dashboard/utils/data_cleaner.py:77 | title-casing a stripped string leaves it stripped |
| Text.TitlePrefijo | dashboard/utils/data_cleaner.py:77 | the prefix of a concatenation is title-cased as the prefix alone |
| Text.TitleSufijo | dashboard/utils/data_cleaner.py:77 | after an uncased character the suffix is title-cased as if alone |
| Text.TitleAfterUncased | dashboard/utils/data_cleaner.py:77 | title-casing splits at an uncased character |
| Text.TitleIdempotent | dashboard/utils/data_cleaner.py:77 | title-casing twice is title-casing once |
| Text.BeforeHyphenShape | dashboard/utils/data_cleaner.py:69 | `split('-')[0]` is the prefix before the first hyphen and holds none |
| Text.BeforeHyphenNoHyphen | dashboard/utils/data_cleaner.py:69 | a string without a hyphen is its own first part |
| Text.BeforeHyphenConcat | dashboard/utils/data_cleaner.py:69 | the first part of a concatenation is found in the first operand when it has a hyphen |
| Text.BeforeHyphenUpper | dashboard/utils/data_cleaner.py:69 | cutting at the hyphen commutes with upper-casing |
| Text.AllSpaceNoHyphen | dashboard/utils/data_cleaner.py:69 | whitespace holds no hyphen |
| Text.StripBeforeHyphenStrip | dashboard/management/commands/limpiar_datos.py:121-125 | stripping before cutting at the hyphen does not change the stripped first part |
| Text.EventKeyUpper | dashboard/management/commands/limpiar_datos.py:121-125 | the command's key (strip, upper, cut, strip) equals the cleaner's key (cut, strip, upper) |
| PyValues.DigitChar | dashboard/views.py:1333 | a digit value renders as a digit character |
| PyValues.NatToDecimal | dashboard/utils/data_cleaner.py:84 | `str()` of a natural number is a non-empty digit string |
| PyValues.Pad2 | dashboard/views.py:1333 | a two-digit field is two digits |
| PyValues.Pad4 | dashboard/views.py:1333 | a four-digit field is four digits |
| PyValues.IsoDate | dashboard/views.py:1333 | `strftime('%Y-%m-%d')` of a valid date is ten characters |
| PyValues.Truncate | dashboard/utils/data_cleaner.py:84 | `int()` of a float truncates toward zero: the result is within one of the float, on the side of zero |
| PyValues.LeadingDigits | dashboard/utils/data_cleaner.py:84 | the leading digits are the longest digit prefix |
| PyValues.Fraction | dashboard/utils/data_cleaner.py:84 | the digits after the point make a proper fraction |
| PyValues.DigitsValueBound | dashboard/utils/data_cleaner.py:84 | `n` digits read as less than `10^n` |
| PyValues.TruncateWholePlusFraction | dashboard/utils/data_cleaner.py:84 | truncating a whole number plus a fraction gives the whole number, with the sign kept |
| PyValues.UnsignedRealTrunc | dashboard/utils/data_cleaner.py:84 | `float()` of an unsigned decimal succeeds exactly when the truncating reader does, and `int()` of it is the truncated value |
| PyValues.DecimalRealTrunc | dashboard/utils/data_cleaner.py:84 | `int(float(s))` is the truncation of `float(s)`, and both succeed together |
| PyValues.DigitsValueAppend | dashboard/utils/data_cleaner.py:84 | appending a digit multiplies by ten and adds it |
| PyValues.NatToDecimalRoundTrip | dashboard/utils/data_cleaner.py:84 | the digits of `str(n)` read back as `n` |
| PyValues.LeadingDigitsOfDigits | dashboard/utils/data_cleaner.py:84 | a digit string is its own digit prefix |
| PyValues.UnsignedTruncOfDigits | dashboard/utils/data_cleaner.py:84 | `int(float('ip.fp'))` and `int(float('ip'))` are the integer part |
| PyValues.DecimalIsStripped | dashboard/utils/data_cleaner.py:84 | a decimal literal has no surrounding whitespace |
| PyValues.DecimalTruncSigned | dashboard/utils/data_cleaner.py:84 | a leading minus negates the truncated value |
| PyValues.LeadingDigitsPrefix | dashboard/utils/data_cleaner.py:84 | the digit prefix stops at the first non-digit |
| PyValues.IntToDecimalRoundTrip | dashboard/utils/data_cleaner.py:84 | `int(float(str(i)))` is `i` for every integer |
| PyValues.Pad2Value | dashboard/views.py:1333 | a zero-padded two-digit field reads back as its number |
| PyValues.Pad4Value | dashboard/views.py:1333 | a zero-padded four-digit field reads back as its number |
| PyValues.IsoDateRoundTrip | dashboard/views.py:1333 | the `%Y-%m-%d` text of a date parses back to that date |
| Fields.FromName | dashboard/utils/data_cleaner.py:50-53 | every dictionary key denotes a field whose name is that key |
| Fields.NameRoundTrip | dashboard/models.py:4-17 | a field is recovered from its key |
| Fields.NameInjective | dashboard/models.py:4-17 | distinct fields have distinct keys |
| Fields.AidFieldNames | dashboard/utils/data_cleaner.py:50-53 | `aid_fields` is the nine distinct keys `kit_b` ... `carpas_plasticas`, in order |
| Fields.AidFieldsAreAids | dashboard/utils/data_cleaner.py:50-53 | every entry of `aid_fields` is an aid field |
| Fields.AidFieldsMembers | dashboard/utils/data_cleaner.py:50-53 | a field is in `aid_fields` exactly when it is one of the nine aid fields |
| Fields.TextFieldsMembers | dashboard/utils/data_cleaner.py:145 | the text fields are exactly `distrito` and `localidad`, distinct |
| Tables.DeptAliasRange | dashboard/utils/data_cleaner.py:13-31 | every department table value is one of its 22 department names |
| Tables.DeptAliasRangeShort | dashboard/utils/data_cleaner.py:13-31 | the same, for keys of up to 12 characters |
| Tables.DeptAliasRangeLong | dashboard/utils/data_cleaner.py:13-31 | the same, for longer keys |
| Tables.DeptNamesNotKeys | dashboard/utils/data_cleaner.py:13-31 | no department name is itself a key, so the lookup is a fixed point on names |
| Tables.DeptNamesCanonical | dashboard/utils/data_cleaner.py:13-31 | every department name is non-empty, stripped, and free of hyphens and lower-case letters |
| Tables.ShortDeptNamesCanonical | dashboard/utils/data_cleaner.py:13-31 | the same, for names of up to 9 characters |
| Tables.LongDeptNamesCanonical | dashboard/utils/data_cleaner.py:13-31 | the same, for longer names |
| Tables.EventAliasRange | dashboard/utils/data_cleaner.py:33-48 | every event table value is one of its event names |
| Tables.EventAliasRangeShort | dashboard/utils/data_cleaner.py:33-48 | the same, for keys of up to 12 characters |
| Tables.EventAliasRangeLong | dashboard/utils/data_cleaner.py:33-48 | the same, for longer keys |
| Tables.EventNamesFixed | dashboard/utils/data_cleaner.py:33-48 | an event name is not a key or maps to itself |
| Tables.EventNamesCanonical | dashboard/utils/data_cleaner.py:33-48 | every event name is non-empty, stripped, and free of hyphens and lower-case letters |
| Tables.ShortEventNamesCanonical | dashboard/utils/data_cleaner.py:33-48 | the same, for names of up to 12 characters |
| Tables.MiddleEventNamesCanonical | dashboard/utils/data_cleaner.py:33-48 | the same, for names of 13 to 18 characters |
| Tables.LongEventNamesCanonical | dashboard/utils/data_cleaner.py:33-48 | the same, for longer names |
| Tables.DeptAliasValue | dashboard/utils/data_cleaner.py:13-31 | a looked-up department is canonical and is not looked up again |
| Tables.EventAliasValue | dashboard/utils/data_cleaner.py:33-48 | a looked-up event is canonical and maps to itself |
| Tables.MixedCaseDeptKeysUnreachable | dashboard/utils/data_cleaner.py:60-61 | the table keys with lower-case letters are keys, but no upper-cased input equals them |
| Tables.MixedCaseDeptKeysAreKeys | dashboard/utils/data_cleaner.py:13-31 | the mixed-case keys are keys of the table |
| Tables.MixedCaseDeptKeysHaveLower | dashboard/utils/data_cleaner.py:13-31 | each mixed-case key has a lower-case letter |
| Tables.ShortMixedCaseDeptKeysHaveLower | dashboard/utils/data_cleaner.py:13-31 | the same, for keys of up to 18 characters |
| Tables.LongMixedCaseDeptKeysHaveLower | dashboard/utils/data_cleaner.py:13-31 | the same, for longer keys |
| DataCleaner.LimpiarNumero | dashboard/utils/data_cleaner.py:79-86 | missing values, the empty string and rejected text give 0; an `int` is kept; a float is truncated toward zero |
| DataCleaner.NumeroOfDecimal | dashboard/utils/data_cleaner.py:79-86 | the decimal text of any integer cleans to that integer |
| DataCleaner.NumeroTruncatesDecimal | dashboard/utils/data_cleaner.py:79-86 | `[-]ip.fp` cleans to the signed integer part |
| DataCleaner.NumeroOfSigned | dashboard/utils/data_cleaner.py:79-86 | a signed numeral cleans to its signed truncation |
| DataCleaner.NumeroOfNonNumeric | dashboard/utils/data_cleaner.py:85-86 | a text without digits cleans to 0 |
| DataCleaner.UnsignedTruncNoDigits | dashboard/utils/data_cleaner.py:84-86 | `float()` rejects a text without digits |
| DataCleaner.LimpiarDepartamento | dashboard/utils/data_cleaner.py:55-61 | a missing department gives `SIN ESPECIFICAR` |
| DataCleaner.DepartamentoRange | dashboard/utils/data_cleaner.py:55-61 | a present department gives a table department or its own stripped upper-case text |
| DataCleaner.UpperStripNormalized | dashboard/utils/data_cleaner.py:60 | the lookup key is stripped and has no lower-case letter |
| DataCleaner.CanonicalNormalized | dashboard/utils/data_cleaner.py:13-48 | table values are normalised |
| DataCleaner.DepartamentoNormalized | dashboard/utils/data_cleaner.py:55-61 | every cleaned department is stripped with no lower-case letter |
| DataCleaner.DepartamentoOfBlank | dashboard/utils/data_cleaner.py:57-61 | a whitespace-only department is truthy and cleans to the empty string |
| DataCleaner.DepartamentoIdempotent | dashboard/utils/data_cleaner.py:55-61 | cleaning a cleaned department changes nothing, except that the empty string becomes `SIN ESPECIFICAR` |
| DataCleaner.DepartamentoOfFixedKey | dashboard/utils/data_cleaner.py:55-61 | a normalised non-key department is its own cleaning |
| DataCleaner.LimpiarEvento | dashboard/utils/data_cleaner.py:63-70 | a missing event gives `SIN EVENTO` |
| DataCleaner.EventoRange | dashboard/utils/data_cleaner.py:63-70 | a present event gives a table event or its own key |
| DataCleaner.EventKeyShape | dashboard/utils/data_cleaner.py:69 | the event key is normalised and holds no hyphen |
| DataCleaner.HyphenatedEventKeyUnreachable | dashboard/utils/data_cleaner.py:40 | `'SEQUIA-INUND.'` is a table key that no event key equals |
| DataCleaner.EventoNormalized | dashboard/utils/data_cleaner.py:63-70 | every cleaned event is normalised and has no hyphen |
| DataCleaner.EventoOfBlankKey | dashboard/utils/data_cleaner.py:65-70 | an event whose first part is blank cleans to the empty string |
| DataCleaner.EventKeyOfClean | dashboard/utils/data_cleaner.py:69 | a normalised hyphen-free text is its own key |
| DataCleaner.EventoOfFixedKey | dashboard/utils/data_cleaner.py:63-70 | a normalised event that the table fixes is its own cleaning |
| DataCleaner.EventoIdempotent | dashboard/utils/data_cleaner.py:63-70 | cleaning a cleaned event changes nothing, except that the empty string becomes `SIN EVENTO` |
| DataCleaner.EventoOfEventName | dashboard/utils/data_cleaner.py:63-70 | every table event cleans to itself |
| DataCleaner.LimpiarTexto | dashboard/utils/data_cleaner.py:72-77 | a missing text gives `Sin Especificar` |
| DataCleaner.TextoCaseOnly | dashboard/utils/data_cleaner.py:72-77 | a present text only changes case after stripping |
| DataCleaner.SentinelTitled | dashboard/utils/data_cleaner.py:75 | `Sin Especificar` is in title case |
| DataCleaner.EspecificarTitled | dashboard/utils/data_cleaner.py:75 | `Especificar` is in title case |
| DataCleaner.TextoOfBlank | dashboard/utils/data_cleaner.py:74-77 | a whitespace-only text cleans to the empty string |
| DataCleaner.TextoStripped | dashboard/utils/data_cleaner.py:72-77 | every cleaned text is stripped |
| DataCleaner.TextoIdempotent | dashboard/utils/data_cleaner.py:72-77 | cleaning a cleaned text changes nothing, except that the empty string becomes `Sin Especificar` |
| DataCleaner.SentinelCleaned | dashboard/utils/data_cleaner.py:72-77 | the sentinel cleans to itself |
| DataCleaner.PresentTextoIdempotent | dashboard/utils/data_cleaner.py:72-77 | idempotence for present texts |
| DataCleaner.TitledTextoAgain | dashboard/utils/data_cleaner.py:72-77 | a non-empty title-cased stripped text cleans to itself |
| DataCleaner.PostProcess | dashboard/utils/data_cleaner.py:88-113 | an event that is not `SIN EVENTO` in some case or padding is kept; a `SIN EVENTO` one becomes `INUNDACION` exactly when it has fibre-cement sheets, else `TEMPORAL` exactly when it has zinc sheets, else `ASISTENCIA` exactly when its aid total is positive, else stays `SIN EVENTO` |
| DataCleaner.SumAidsFrame | dashboard/utils/data_cleaner.py:101 | the aid sum depends only on the aid values |
| DataCleaner.AidAtMostSum | dashboard/utils/data_cleaner.py:101 | with non-negative aid, the sum is non-negative and bounds each listed aid |
| DataCleaner.ReclassifiedLabels | dashboard/utils/data_cleaner.py:96-112 | the three labels are not `SIN EVENTO`, and the sentinel is |
| DataCleaner.AsciiLabelNormalized | dashboard/utils/data_cleaner.py:96 | an upper-case ASCII label with inner spaces is normalised |
| DataCleaner.NormalizedLabel | dashboard/utils/data_cleaner.py:96 | a normalised event passes the `SIN EVENTO` test exactly when it is `SIN EVENTO` |
| DataCleaner.SameAidsAfterEvento | dashboard/utils/data_cleaner.py:133-136 | rewriting the event keeps the aid values |
| DataCleaner.PostProcessFrame | dashboard/utils/data_cleaner.py:88-113 | the result depends only on the event and the aid values |
| DataCleaner.PostProcessIdempotent | dashboard/utils/data_cleaner.py:88-113 | post-processing a post-processed record gives the same event |
| DataCleaner.LabelledIdempotent | dashboard/utils/data_cleaner.py:88-113 | idempotence when the result is a label |
| DataCleaner.UnlabelledIdempotent | dashboard/utils/data_cleaner.py:88-113 | idempotence when the result stays `SIN EVENTO` |
| DataCleaner.SentinelIsSinEvento | dashboard/utils/data_cleaner.py:96 | `SIN EVENTO` passes its own test |
| DataCleaner.ReclassifyAgain | dashboard/utils/data_cleaner.py:96-112 | any spelling of `SIN EVENTO` is reclassified alike |
| DataCleaner.ReclassificationFrame | dashboard/utils/data_cleaner.py:96-112 | two `SIN EVENTO` records with the same aid are reclassified alike |
| DataCleaner.PostProcessWithoutAid | dashboard/utils/data_cleaner.py:103-112 | with non-negative aid, `SIN EVENTO` stays exactly when the total is 0; fibre-cement sheets give `INUNDACION` |
| DataCleaner.CleanAidsKeys | dashboard/utils/data_cleaner.py:120-124 | the aid loop keeps the keys |
| DataCleaner.CleanAidsOther | dashboard/utils/data_cleaner.py:120-124 | the aid loop leaves unlisted fields alone |
| DataCleaner.CleanAidsListed | dashboard/utils/data_cleaner.py:120-124 | the aid loop cleans each listed field present |
| DataCleaner.CleanAidsAreInts | dashboard/utils/data_cleaner.py:120-124 | after the aid loop every aid field is an integer |
| DataCleaner.EventoStepFacts | dashboard/utils/data_cleaner.py:127-130 | after the event step the event is a string and the aid values are integers |
| DataCleaner.CleanTextosKeys | dashboard/utils/data_cleaner.py:145-149 | the text loop keeps the keys |
| DataCleaner.CleanTextosOther | dashboard/utils/data_cleaner.py:145-149 | the text loop leaves other fields alone |
| DataCleaner.CleanTextosListed | dashboard/utils/data_cleaner.py:145-149 | the text loop cleans each listed field present |
| DataCleaner.CleanAidsAt | dashboard/utils/data_cleaner.py:120-124 | after the aid loop, a field is cleaned if it is an aid field and kept otherwise |
| DataCleaner.CleanTextosAt | dashboard/utils/data_cleaner.py:145-149 | after the text loop, a field is cleaned if it is a text field and kept otherwise |
| DataCleaner.CleanAidsAll | dashboard/utils/data_cleaner.py:120-124 | the same for every key |
| DataCleaner.CleanTextosAll | dashboard/utils/data_cleaner.py:145-149 | the same for every key |
| DataCleaner.CleanRecordKeys | dashboard/utils/data_cleaner.py:115-151 | the whole pipeline keeps the keys |
| DataCleaner.MiddleStepsAt | dashboard/utils/data_cleaner.py:132-142 | after the post-processing and the department step, each field is as those steps give it |
| DataCleaner.PostProcessStepAt | dashboard/utils/data_cleaner.py:133-136 | the post-processing step only rewrites the event |
| DataCleaner.DepartamentoStepAt | dashboard/utils/data_cleaner.py:139-142 | the department step only rewrites the department |
| DataCleaner.CleanRecordAt | dashboard/utils/data_cleaner.py:115-151 | each field of the cleaned record is what that field's cleaner makes of it |
| DataCleaner.CleanRecordAll | dashboard/utils/data_cleaner.py:115-151 | the same for every key |
| DataCleaner.CleanedAidOf | dashboard/utils/data_cleaner.py:120-124 | the cleaned aid value of an aid field is `limpiar_numero` of it, 0 when absent |
| DataCleaner.CleanEventoKept | dashboard/utils/data_cleaner.py:127-136 | an event that does not clean to `SIN EVENTO` is not reclassified |
| DataCleaner.SumAidsZero | dashboard/utils/data_cleaner.py:101 | with non-negative aid, the sum is 0 exactly when every listed aid is 0 |
| DataCleaner.TotalAidsZero | dashboard/utils/data_cleaner.py:101 | the same for the nine aid fields |
| DataCleaner.CleanEventoReclassified | dashboard/utils/data_cleaner.py:127-136 | a `SIN EVENTO` record stays so exactly when all its cleaned aid is 0; fibre-cement gives `INUNDACION` |
| DataCleaner.LimpiarAyudas | dashboard/utils/data_cleaner.py:120-124 | the aid loop keeps the keys, cleans each aid field present and leaves the rest |
| DataCleaner.LimpiarTextos | dashboard/utils/data_cleaner.py:145-149 | the text loop keeps the keys, cleans `distrito` and `localidad` and leaves the rest |
| DataCleaner.LimpiarRegistroCompleto | dashboard/utils/data_cleaner.py:115-151 | the cleaned copy has the same keys, and each field is as its cleaner gives it |
| Secuencias.Aplicar | dashboard/management/commands/limpiar_datos.py:93-172 | a column step maps each row, keeping the order and count |
| LimpiarDatos.Estandarizar | dashboard/management/commands/limpiar_datos.py:93-145 | the department and event steps give each row its standardised department and event |
| LimpiarDatos.EstandarizarDepartamentos | dashboard/management/commands/limpiar_datos.py:93-117 | each row gets its standardised department, with `SIN_DEPARTAMENTO` for null-like text |
| LimpiarDatos.EstandarizarEventos | dashboard/management/commands/limpiar_datos.py:121-145 | each row gets its standardised event |
| LimpiarDatos.MarcarEventos | dashboard/management/commands/limpiar_datos.py:121-122 | each event is stripped and upper-cased, with `SIN_EVENTO` for null-like text |
| LimpiarDatos.RecortarEventos | dashboard/management/commands/limpiar_datos.py:125 | each event is cut at the first hyphen and stripped |
| LimpiarDatos.TraducirEventos | dashboard/management/commands/limpiar_datos.py:145 | each event is replaced through the table |
| LimpiarDatos.Reclasificar | dashboard/management/commands/limpiar_datos.py:148-152 | the mask is computed once, and each row gets the three overwrites in order |
| LimpiarDatos.Sobrescribir1 | dashboard/management/commands/limpiar_datos.py:150 | masked rows with fibre-cement sheets become `INUNDACION`; other rows are unchanged |
| LimpiarDatos.Sobrescribir2 | dashboard/management/commands/limpiar_datos.py:151 | masked rows with zinc sheets become `TEMPORAL`; other rows are unchanged |
| LimpiarDatos.Sobrescribir3 | dashboard/management/commands/limpiar_datos.py:152 | masked rows with a positive aid sum become `ASISTENCIA`; other rows are unchanged |
| LimpiarDatos.FilasAEliminar | dashboard/management/commands/limpiar_datos.py:155 | the ids of the masked rows whose aid sum is 0, in order |
| LimpiarDatos.QuitarFilas | dashboard/management/commands/limpiar_datos.py:161 | the rows whose id is not listed, in order |
| LimpiarDatos.LimpiarLocalidades | dashboard/management/commands/limpiar_datos.py:167-172 | each locality and district is stripped and title-cased, with `Sin Especificar` for `Nan`, `None` and the empty string |
| LimpiarDatos.Handle | dashboard/management/commands/limpiar_datos.py:27-243 | a dry run deletes and saves nothing; otherwise the ids the rule selects are deleted and every other row is saved, cleaned by every step |
| LimpiarDatos.PasosConservanIds | dashboard/management/commands/limpiar_datos.py:93-152 | the steps keep ids and aid values, and the rule reads the row after the event step |
| LimpiarDatos.EliminadosPorPasos | dashboard/management/commands/limpiar_datos.py:148-155 | the ids the passes select are the ids of the rows the rule selects |
| LimpiarDatos.GuardadosPorPasos | dashboard/management/commands/limpiar_datos.py:161-219 | the rows saved through the passes are the kept rows, each cleaned by every step |
| LimpiarDatos.MarcadosDe | dashboard/management/commands/limpiar_datos.py:155 | the masked zero-sum ids are the ids of the `SIN EVENTO` rows without aid |
| LimpiarDatos.IdsDondeAplicar | dashboard/management/commands/limpiar_datos.py:155 | selecting after an id-keeping step is selecting by the composed rule |
| LimpiarDatos.QuitarNada | dashboard/management/commands/limpiar_datos.py:156-161 | removing no ids keeps the frame |
| LimpiarDatos.QuitarAplicar | dashboard/management/commands/limpiar_datos.py:161-172 | removing rows commutes with an id-keeping step |
| LimpiarDatos.AplicarFinal | dashboard/management/commands/limpiar_datos.py:93-172 | the three passes compose into the per-row cleaning |
| LimpiarDatos.IdsDondeExactos | dashboard/management/commands/limpiar_datos.py:155 | an id is selected exactly when some row with it satisfies the rule |
| LimpiarDatos.QuitarFrame | dashboard/management/commands/limpiar_datos.py:161 | the filter depends only on each row's id being listed |
| LimpiarDatos.QuitarIdsDonde | dashboard/management/commands/limpiar_datos.py:155-161 | with distinct ids, dropping the selected ids drops exactly the selected rows |
| LimpiarDatos.EliminacionExacta | dashboard/management/commands/limpiar_datos.py:155-161 | the deleted ids are exactly those of rows the rule selects, and the kept rows are exactly the others |
| LimpiarDatos.SumaNoNegativa | dashboard/management/commands/limpiar_datos.py:152 | a row sum of non-negative aid is non-negative and bounds each aid |
| LimpiarDatos.ReclasificadaCompleta | dashboard/management/commands/limpiar_datos.py:148-152 | for any aid quantities: a row outside the mask is unchanged; inside it the last overwrite that applies wins, so a positive sum gives `ASISTENCIA` whatever the sheets, then zinc gives `TEMPORAL`, then fibre-cement `INUNDACION` |
| LimpiarDatos.ReclasificadaNoNegativa | dashboard/management/commands/limpiar_datos.py:148-152 | with non-negative aid, a `SIN EVENTO` row with aid becomes `ASISTENCIA`, and every other row keeps its event |
| LimpiarDatos.GuardadoSinEvento | dashboard/management/commands/limpiar_datos.py:148-172 | a saved row is `SIN EVENTO` only with an aid sum of at most 0, and with 0 it was deletable |
| LimpiarDatos.GuardadoNuncaSinEvento | dashboard/management/commands/limpiar_datos.py:148-172 | with non-negative aid, no kept row is saved as `SIN EVENTO` |
| LimpiarDatos.DepartamentoComparado | dashboard/management/commands/limpiar_datos.py:93-117 | the department step agrees with `limpiar_departamento` except on null-like text, which becomes `SIN_DEPARTAMENTO` |
| LimpiarDatos.DepartamentoEstandarRango | dashboard/management/commands/limpiar_datos.py:93-117 | a department becomes a table department, its own upper-case text or the sentinel |
| LimpiarDatos.EventoComparado | dashboard/management/commands/limpiar_datos.py:121-145 | the event step agrees with `limpiar_evento` except on null-like text, which becomes `SIN EVENTO` |
| LimpiarDatos.EventoDeMarca | dashboard/management/commands/limpiar_datos.py:122-145 | the marker `SIN_EVENTO` ends as `SIN EVENTO` |
| LimpiarDatos.RecorteDeMarca | dashboard/management/commands/limpiar_datos.py:125 | the marker survives the cut at the hyphen |
| LimpiarDatos.TraduccionDeMarca | dashboard/management/commands/limpiar_datos.py:142 | the table maps the marker to `SIN EVENTO` |
| LimpiarDatos.EventoEstandarNormalizado | dashboard/management/commands/limpiar_datos.py:121-148 | a standardised event is normalised and passes the mask exactly when it is `SIN EVENTO` |
| LimpiarDatos.TextoEstandarTitulado | dashboard/management/commands/limpiar_datos.py:167-172 | a cleaned locality or district is non-empty, stripped and in title case |
| LimpiarDatos.TextoComparado | dashboard/management/commands/limpiar_datos.py:167-172 | the text step agrees with `limpiar_texto` except on `Nan`, `None` and blank text |
| DataCleaner.SumAidsOfRecord | dashboard/management/commands/limpiar_datos.py:84-85 | summing a row's or a stored record's `dict` over a prefix of `aid_fields` sums the same prefix of its quantities (`ayudas_cols`, `total_ayudas`) |
| LimpiarDatos.RegistroDeFila | dashboard/management/commands/limpiar_datos.py:47-65 | a row's `dict` carries its event, its sheets and its aid total |
| LimpiarDatos.ReclasificacionComparada | dashboard/management/commands/limpiar_datos.py:150-152 | on `SIN EVENTO` rows with non-negative aid, the command agrees with `post_process_eventos_with_aids` exactly when the row has no fibre-cement and no zinc sheets |
| Models.Nuevo | dashboard/models.py:9-17 | a new record has the given texts and date, and every aid quantity defaults to 0 |
| Models.Ayudas | dashboard/models.py:9-17 | a record has nine aid quantities |
| Models.Texto | dashboard/models.py:24-25 | `__str__` is the locality, `" - "`, and a date that reads back as the record's |
| Models.RegistroTextos | dashboard/views.py:1327 | the record `dict` holds the stored texts |
| Models.RegistroAyudas | dashboard/views.py:1327 | the record `dict` holds the stored aid quantities as integers |
| Models.TotalAyudasEsSuma | dashboard/models.py:27-32 | `total_ayudas` is the sum of the nine quantities and equals the cleaner's aid total of the `dict` |
| Models.EstadisticasVacias | dashboard/models.py:34-55 | with no rows every aggregate but the count is `NULL`, and with rows none is |
| Models.SumaUltimo | dashboard/models.py:39-48 | a column sum grows by the last row's quantity |
| Models.SumaDeColumnas | dashboard/models.py:45-47 | adding the nine column sums gives the sum of the records' `total_ayudas` |
| Models.TotalAgregado | dashboard/models.py:45-47 | the aggregate `total_ayudas` is the sum of the records' `total_ayudas` |
| Models.AntesOIgualOrdenTotal | dashboard/models.py:41-42 | date order is total and transitive |
| Models.MinFechaEsMinimo | dashboard/models.py:41 | `Min('fecha')` is a date of the table and at most every date |
| Models.MaxFechaEsMaximo | dashboard/models.py:42 | `Max('fecha')` is a date of the table and at least every date |
| Views.FilaAntesDePostProceso | dashboard/views.py:70-77 | before post-processing, the frame row's event is a string and its aid values are integers |
| Views.Limpiado | dashboard/views.py:62-78 | the cleaned frame has one cleaned row per record, in order |
| Views.FilaVistaComparada | dashboard/views.py:70-78 | apart from the event, the frame path cleans each field as `limpiar_registro_completo` does |
| Views.ClaveSinGuion | dashboard/views.py:74 | a stripped hyphen-free event's key is its upper-case form |
| Views.CentinelaEnMayusculas | dashboard/views.py:74 | `Sin Especificar` upper-cases to `SIN ESPECIFICAR` |
| Views.ClaveDelCentinela | dashboard/views.py:74 | the event key of `Sin Especificar` is `SIN ESPECIFICAR` |
| Views.CentinelaSinAlias | dashboard/utils/data_cleaner.py:33-48 | `SIN ESPECIFICAR` is not an event key |
| Views.EventoDelCentinela | dashboard/views.py:74 | `limpiar_evento` of `Sin Especificar` is `SIN ESPECIFICAR` |
| Views.CentinelaNoEsSinEvento | dashboard/views.py:78 | `SIN ESPECIFICAR` is never reclassified |
| Views.EventoFaltanteDiverge | dashboard/views.py:74-78 | a missing event is `SIN ESPECIFICAR` on the frame path, but `SIN EVENTO` or a label on the per-record path |
| Views.ClaveVacia | dashboard/utils/data_cleaner.py:33-48 | the empty key is not an event key |
| Views.EventoEnBlancoDiverge | dashboard/views.py:74-78 | a blank event is `SIN EVENTO` or a label on the frame path, but empty on the per-record path |
| Views.ClaveTitulada | dashboard/views.py:74 | `limpiar_texto` before `limpiar_evento` keeps the event key of a non-blank text |
| Views.EventoPresenteCoincide | dashboard/views.py:74-78 | for any other present event both paths agree |
| Views.Cache.constructor | dashboard/views.py:38-42 | the cache starts with no frame, time 0 and no charts |
| Views.Cache.GetCleanedDataframe | dashboard/views.py:45-84 | a fresh cached frame is returned unchanged; otherwise the frame is rebuilt and stamped now, and the charts are dropped |
| Views.Cache.GetCachedGraph | dashboard/views.py:86-96 | a fresh cached chart is returned; otherwise it is generated and stored under its name, and the frame is untouched |
| Views.TotalPositivo | dashboard/views.py:518-523 | a non-empty count of non-empty groups has a positive sum |
| Views.PorcentajeEntero | dashboard/views.py:523-530 | `total / sum * 100 >= 3` exactly when `100 * total >= 3 * sum` |
| Views.TotalDeConcat | dashboard/views.py:537 | the total of a concatenation is the sum of the totals |
| Views.TotalesParticion | dashboard/views.py:529-530 | the large and small groups' totals add up to the whole |
| Views.MiembrosGrandes | dashboard/views.py:529 | the large groups are exactly those at or above 3% |
| Views.MiembrosPequenos | dashboard/views.py:530 | the small groups are exactly those under 3% |
| Views.PlegadoConservaTotal | dashboard/views.py:529-539 | the drawn slices add up to the row count |
| Views.PlegadoOtros | dashboard/views.py:529-539 | the slices are the large groups in order, plus one `OTROS` slice holding the rest exactly when some group is under 3% |
| Views.PlegadoConservaGrandes | dashboard/views.py:529-539 | every group at or above 3% is drawn, and every slice before `OTROS` is such a group |
| Views.CoordenadasEnParaguay | dashboard/views.py:363-386 | every marker lies in Paraguay's bounding box with zoom 6 to 12 |
| Views.DepartamentosSinCoordenadas | dashboard/views.py:363-386 | exactly seven cleaned department names fall back to the centre, and so does `SIN ESPECIFICAR` |
| Views.FloorDiv | dashboard/views.py:1348 | `//` rounds toward negative infinity |
| Views.Rebanada | dashboard/views.py:1325 | a slice with non-negative bounds has the length of `[start:end]` clipped to the table, and is empty when `end <= start` |
| Views.FilasDeRebanada | dashboard/views.py:1325-1341 | the k-th row of a slice is the row of record `start + k` |
| Views.FilaLimpia | dashboard/views.py:1326-1341 | one loop iteration gives the record's table row |
| Views.FilasLimpias | dashboard/views.py:1324-1341 | the loop gives one table row per record of the slice, in order |
| Views.DatosTabla | dashboard/views.py:1313-1349 | the response is the page of `Paginar`, including its errors |
| Views.CampoTexto | dashboard/utils/data_cleaner.py:145-149 | a cleaned text field is `limpiar_texto` of it |
| Views.CampoDepartamento | dashboard/utils/data_cleaner.py:139-142 | the cleaned department is `limpiar_departamento` of it |
| Views.CampoAyuda | dashboard/utils/data_cleaner.py:120-124 | an integer aid field is unchanged by cleaning |
| Views.ColumnasTextos | dashboard/views.py:1332-1337 | the text columns are the cleaned texts, department and event |
| Views.ColumnasAyudas | dashboard/views.py:1331-1340 | the kit columns and `total_ayudas` are the stored integers and their sum |
| Views.FilaDeTablaValores | dashboard/views.py:1325-1341 | each table row carries the record's cleaned texts, department and event, its kits, its `total_ayudas` and its date |
| Views.PaginacionErrores | dashboard/views.py:1315-1349 | a request fails exactly when `per_page` is 0 or a slice bound is negative, with the matching error |
| Views.PaginasTotales | dashboard/views.py:1348 | `total_pages` is 0 for an empty table and otherwise the least page count that covers every record |
| Views.PaginarCasos | dashboard/views.py:1318-1349 | the response by cases on the slice bounds and `per_page` |
| Views.PaginaDesde | dashboard/views.py:1318-1349 | a valid request's page is the slice from `(page - 1) * per_page` |
| Views.PaginaValida | dashboard/views.py:1313-1349 | a valid page reports the total, the page count, and the next `per_page` records at most, as rows |
| Views.PaginasCubren | dashboard/views.py:1313-1349 | record `i` is entry `i % per_page` of page `i / per_page + 1`, which is within `total_pages` |
| Views.CocienteMenor | dashboard/views.py:1348 | a record within `tp` pages is on one of the first `tp` pages |
| Views.PaginaNegativaVacia | dashboard/views.py:1318-1325 | a negative `per_page` with a page of 0 or less gives an empty page |

## Left out

- Text.UpperChar: maps only ASCII letters and the Latin-1 letters that have a one-letter Latin-1 capital (`à`-`þ` except `÷`). Python also maps `ß` to `SS`, which changes the length, `ÿ` to `Ÿ` and `µ` to `Μ`; the model leaves these three alone. It also leaves alone every letter outside Latin-1, among them the Guarani nasal vowels `ẽ`, `ĩ`, `ũ` and `ỹ`, which Python capitalises. The same alphabet bounds `Text.LowerChar`, `Text.Upper` and `Text.Title`.
- Whitespace follows Python's `str.isspace()`.
- `float()` is modelled on the plain decimal grammar only: an optional sign, digits and an optional fraction, with surrounding whitespace. The model gives 0 for any other text. Python instead reads exponents and underscores (`'1e3'` and `'1_000'` give 1000). It raises an uncaught `OverflowError` on `'inf'`. For `'nan'` it gives 0, as the model does, because the `ValueError` from `int()` is caught.
- DataCleaner.LimpiarNumero: keeps every `int` exactly and reads decimal text exactly. Python's `int(float(x))` goes through a 64-bit float: integers beyond 2^53 are rounded (`int(float(2**53 + 1)) == 2**53`), long decimal texts are rounded before truncation, and integers beyond the float range raise an uncaught `OverflowError`.
- The text of `str()` of a float is taken as given (a field of the value), not computed.
- Date cleaning is left out: `pd.to_datetime`, and the command's step 1 with its year, month and weekday columns. The model keeps dates as stored.
- `strftime` of years below 1000 is left out; such years are zero-padded here.
- Console output is left out: the statistics printing (`verbose`) and the progress messages.
- The ORM, transactions, the save loop's per-row exceptions and its `int()` on integer columns are not modelled. The database is a sequence of records in `-fecha` order; deleting and saving are the method's outputs.
- Views.PaginasCubren: the table orders by `-fecha` alone (`views.py` line 1321), and every page is a separate query. SQL does not fix the order of records that share a date, so the program can repeat or skip such records between pages. The model answers every request from one fixed order, with ties broken once for all requests. The one-page-per-record property holds only under that order.
- `handle` reads `options['dry-run']`, which argparse stores as `dry_run`. The model takes the flag as a parameter and does not model the `KeyError` this raises.
- `IntegerField` is not bounded to 32 bits. `int()`, the aid sums and the SQL sums use unbounded integers.
- The pie chart's percentages are exact rationals here. They are floating point in the source; near the 3% threshold, rounding could put a group on the other side.
- `int()` parsing of the `page` and `per_page` query parameters is left out; they arrive as integers.
- Chart rendering and base64 encoding are left out; a chart is an opaque string.
- `groupby('evento').size()` is not modelled: the folding starts from the counted groups.
- pandas dtype coercion is not modelled: the command's aid columns are integer columns, which `to_numeric(...).fillna(0)` leaves as they are.
- An empty `pd.DataFrame()` is modelled as an empty sequence.
- The views that only call the cleaners and draw or serialise the results (the dashboard, the other charts, the map's aggregation and the filters) are not part of this model. The admin, the URL configuration and the database setup script are not part of it either.
- Views.Rebanada: states only the slice's length. Its elements are stated by `Views.FilasDeRebanada`.
