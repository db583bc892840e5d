/**
 * The backend's JSON helpers: `make_json_serializable`, which rewrites a Python value into
 * one `json.dumps` accepts, and `safe_json_dumps`, which falls back to an error record
 * instead of raising.
 */
module JsonSerializer {
  import opened Wrappers

  /**
   * The Python values the helper distinguishes. Dates, UUIDs and objects carry the text
   * their `isoformat()` or `str()` gives; a model object carries what its `.dict()`
   * returned (`None` when it raised); an object of any other class carries whether
   * `json.dumps` accepts it.
   */
  datatype PyValue =
    | PNone
    | PStr(s: string)
    | PInt(i: int)
    | PFloat(f: real)
    | PBool(b: bool)
    | PDateTime(isoText: string)
    | PUuid(text: string)
    | PDecimal(d: real)
    | PModel(asDict: Option<PyValue>, text: string)
    | PDict(items: seq<Entry>)
    | PList(elems: seq<PyValue>)
    | PTuple(elems: seq<PyValue>)
    | PSet(elems: seq<PyValue>)
    | POther(dumpsAccepts: bool, text: string)

  datatype Entry = Entry(key: string, value: PyValue)

  /** A value made only of None, str, int, float, bool, list and dict (and objects `json.dumps` takes). */
  predicate IsJson(v: PyValue) {
    match v
    case PNone => true
    case PStr(_) => true
    case PInt(_) => true
    case PFloat(_) => true
    case PBool(_) => true
    case PList(elems) => forall i | 0 <= i < |elems| :: IsJson(elems[i])
    case PDict(items) => forall i | 0 <= i < |items| :: IsJson(items[i].value)
    case POther(accepted, _) => accepted
    case _ => false
  }

  /** `make_json_serializable`: the checks in the source's order. */
  function MakeSerializable(v: PyValue): (r: PyValue)
    ensures IsJson(r)
    ensures v.PDict? ==>
      (r.PDict? && |r.items| == |v.items| && forall i | 0 <= i < |v.items| :: r.items[i].key == v.items[i].key)
    ensures (v.PList? || v.PTuple? || v.PSet?) ==> r.PList? && |r.elems| == |v.elems|
  {
    match v
    case PNone => PNone
    case PStr(_) => v
    case PInt(_) => v
    case PFloat(_) => v
    case PBool(_) => v
    case PDateTime(iso) => PStr(iso)
    case PUuid(text) => PStr(text)
    case PDecimal(d) => PFloat(d)
    case PModel(asDict, text) => if asDict.Some? then MakeSerializable(asDict.value) else PStr(text)
    case PDict(items) => PDict(MakeEntries(items))
    case PList(elems) => PList(MakeAll(elems))
    case PTuple(elems) => PList(MakeAll(elems))
    case PSet(elems) => PList(MakeAll(elems))
    case POther(accepted, text) => if accepted then v else PStr(text)
  }

  function MakeAll(elems: seq<PyValue>): (r: seq<PyValue>)
    ensures |r| == |elems|
    ensures forall i | 0 <= i < |elems| :: r[i] == MakeSerializable(elems[i])
  {
    if elems == [] then [] else [MakeSerializable(elems[0])] + MakeAll(elems[1..])
  }

  function MakeEntries(items: seq<Entry>): (r: seq<Entry>)
    ensures |r| == |items|
    ensures forall i | 0 <= i < |items| :: r[i] == Entry(items[i].key, MakeSerializable(items[i].value))
  {
    if items == [] then [] else [Entry(items[0].key, MakeSerializable(items[0].value))] + MakeEntries(items[1..])
  }

  /** A value that is already JSON comes back unchanged. */
  lemma {:induction false} JsonUnchanged(v: PyValue)
    requires IsJson(v)
    ensures MakeSerializable(v) == v
    decreases v
  {
    match v
    case PList(elems) =>
      forall i | 0 <= i < |elems| ensures MakeSerializable(elems[i]) == elems[i] {
        JsonUnchanged(elems[i]);
      }
      assert MakeAll(elems) == elems;
    case PDict(items) =>
      forall i | 0 <= i < |items| ensures MakeSerializable(items[i].value) == items[i].value {
        JsonUnchanged(items[i].value);
      }
      assert MakeEntries(items) == items;
    case _ =>
  }

  /** Converting twice is converting once. */
  lemma Idempotent(v: PyValue)
    ensures MakeSerializable(MakeSerializable(v)) == MakeSerializable(v)
  {
    JsonUnchanged(MakeSerializable(v));
  }

  /** Scalars pass through; dates, UUIDs and decimals become their text or number. */
  lemma ScalarConversions(v: PyValue)
    ensures v.PNone? || v.PStr? || v.PInt? || v.PFloat? || v.PBool? ==> MakeSerializable(v) == v
    ensures v.PDateTime? ==> MakeSerializable(v) == PStr(v.isoText)
    ensures v.PUuid? ==> MakeSerializable(v) == PStr(v.text)
    ensures v.PDecimal? ==> MakeSerializable(v) == PFloat(v.d)
    ensures v.PModel? && v.asDict.None? ==> MakeSerializable(v) == PStr(v.text)
    ensures v.POther? && !v.dumpsAccepts ==> MakeSerializable(v) == PStr(v.text)
  {
  }

  const MAX_REPRESENTATION := 1000

  /** The record `safe_json_dumps` serialises instead when the conversion's dump fails. */
  function FallbackRecord(typeText: string, text: string): (r: PyValue)
    ensures r.PDict? && |r.items| == 3 && r.items[2].key == "string_representation"
    ensures r.items[2].value.PStr? && |r.items[2].value.s| <= MAX_REPRESENTATION
    ensures |r.items[2].value.s| <= |text| && r.items[2].value.s == text[..|r.items[2].value.s|]
    ensures IsJson(r)
  {
    PDict([
      Entry("error", PStr("Serialization failed")),
      Entry("type", PStr(typeText)),
      Entry("string_representation", PStr(if |text| > MAX_REPRESENTATION then text[..MAX_REPRESENTATION] else text))])
  }

  /**
   * `safe_json_dumps`: the dump of the converted value with the caller's options
   * (`dumps`, that is `json.dumps(..., **kwargs)`), or, when that fails, the dump of the
   * fallback record with plain `json.dumps` (`plainDumps`), which ignores the options.
   */
  function SafeJsonDumps(v: PyValue, typeText: string, text: string,
                         dumps: PyValue -> Result<string>, plainDumps: PyValue -> Result<string>): (r: Result<string>)
    ensures dumps(MakeSerializable(v)).Success? ==> r == dumps(MakeSerializable(v))
    ensures dumps(MakeSerializable(v)).Failure? ==> r == plainDumps(FallbackRecord(typeText, text))
  {
    var first := dumps(MakeSerializable(v));
    if first.Success? then first else plainDumps(FallbackRecord(typeText, text))
  }

  /**
   * The safe dump never fails, whatever the caller's options do, as long as plain
   * `json.dumps` accepts the fallback record (three strings); when the options accept
   * the converted value, its dump is returned.
   */
  lemma SafeDumpsSucceeds(v: PyValue, typeText: string, text: string,
                          dumps: PyValue -> Result<string>, plainDumps: PyValue -> Result<string>)
    requires forall t: string, s: string :: plainDumps(FallbackRecord(t, s)).Success?
    ensures SafeJsonDumps(v, typeText, text, dumps, plainDumps).Success?
    ensures dumps(MakeSerializable(v)).Success? ==>
      SafeJsonDumps(v, typeText, text, dumps, plainDumps) == dumps(MakeSerializable(v))
  {
    if dumps(MakeSerializable(v)).Failure? {
      assert plainDumps(FallbackRecord(typeText, text)).Success?;
    }
  }

  /**
   * When the caller's options make the dump fail, the text returned does not depend on
   * those options: two option sets that both fail give the same fallback text.
   */
  lemma FallbackIgnoresOptions(v: PyValue, typeText: string, text: string,
                               dumps1: PyValue -> Result<string>, dumps2: PyValue -> Result<string>,
                               plainDumps: PyValue -> Result<string>)
    requires dumps1(MakeSerializable(v)).Failure? && dumps2(MakeSerializable(v)).Failure?
    ensures SafeJsonDumps(v, typeText, text, dumps1, plainDumps) == SafeJsonDumps(v, typeText, text, dumps2, plainDumps)
    ensures SafeJsonDumps(v, typeText, text, dumps1, plainDumps) == plainDumps(FallbackRecord(typeText, text))
  {
  }
}
