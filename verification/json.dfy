/**
 * JSON values as the Python code passes them around: dictionaries decoded
 * from HTTP responses and from snapshot files, and the dictionaries that
 * `to_dict` produces.  Objects are unordered here; where the order of a
 * dictionary matters to the source it is modelled as an association list.
 */
module Json {
  import opened Wrappers

  datatype JsonValue =
    | JNull
    | JBool(b: bool)
    | JInt(i: int)
    | JReal(r: real)
    | JStr(s: string)
    | JArr(items: seq<JsonValue>)
    | JObj(fields: map<string, JsonValue>)

  /** `d.get(key)`: the value under `key`, or `None` (JSON null) when absent. */
  function Get(d: map<string, JsonValue>, key: string): JsonValue
  {
    if key in d then d[key] else JNull
  }

  /** `d.get(key, default)`. */
  function GetOr(d: map<string, JsonValue>, key: string, default: JsonValue): JsonValue
  {
    if key in d then d[key] else default
  }

  /** `datetime.isoformat` and `datetime.fromisoformat` on the model's clock;
      parsing fails where `fromisoformat` raises. */
  datatype IsoCodec = IsoCodec(format: int -> string, parse: string -> Option<int>)

  /** The codec reads back what it writes, and never writes an empty text. */
  ghost predicate RoundTrips(iso: IsoCodec) {
    forall t :: iso.format(t) != "" && iso.parse(iso.format(t)) == Some(t)
  }

  /** A string field: its value, the default when absent, `None` when it
      has another type or is required and absent. */
  function StrField(d: map<string, JsonValue>, key: string, default: Option<string>): Option<string> {
    if key !in d then default
    else match d[key]
      case JStr(s) => Some(s)
      case _ => None
  }

  function IntField(d: map<string, JsonValue>, key: string, default: Option<int>): Option<int> {
    if key !in d then default
    else match d[key]
      case JInt(i) => Some(i)
      case _ => None
  }

  function BoolField(d: map<string, JsonValue>, key: string, default: bool): Option<bool> {
    if key !in d then Some(default)
    else match d[key]
      case JBool(b) => Some(b)
      case _ => None
  }

  function RealField(d: map<string, JsonValue>, key: string, default: real): Option<real> {
    if key !in d then Some(default)
    else match d[key]
      case JReal(r) => Some(r)
      case _ => None
  }

  /** A timestamp field: `Some(None)` when absent or null, `Some(Some(t))`
      when it holds a text that parses, `None` otherwise. */
  function TimeField(d: map<string, JsonValue>, key: string, iso: IsoCodec): Option<Option<int>> {
    if key !in d || d[key] == JNull then Some(None)
    else match d[key]
      case JStr(s) =>
        if s == "" then None
        else (match iso.parse(s) case Some(t) => Some(Some(t)) case None => None)
      case _ => None
  }

  /** A timestamp written by a codec that round-trips reads back as itself. */
  lemma TimeFieldRoundTrip(d: map<string, JsonValue>, key: string, iso: IsoCodec, t: Option<int>)
    requires RoundTrips(iso)
    requires key in d && d[key] == (if t.Some? then JStr(iso.format(t.value)) else JNull)
    ensures TimeField(d, key, iso) == Some(t)
  {
    if t.Some? {
      var x := t.value;
      assert iso.parse(iso.format(x)) == Some(x);
      assert iso.format(x) != "";
    }
  }
}
