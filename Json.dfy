/**
 * The JSON-shaped records the scripts pass around: what `json.loads` returns
 * for the model's answers, the error markers the retry wrappers build, and the
 * merged records. Only the JSON types the record schemas use appear: strings,
 * lists of strings and nested objects.
 */
module Json {

  datatype Value = Str(s: string) | Strs(items: seq<string>) | Obj(fields: map<string, Value>)

  /** A JSON object (a Python `dict` with string keys). */
  type Object = map<string, Value>

  /** What `json.loads` does with one text: a decoded object, or the `JSONDecodeError` message. */
  datatype ParseResult = Parsed(obj: Object) | Malformed(message: string)

  /** Iterating a Python string: its one-character strings, in order. */
  function Chars(s: string): (r: seq<string>)
    ensures |r| == |s|
    ensures forall i :: 0 <= i < |s| ==> r[i] == [s[i]]
  {
    if s == [] then [] else [[s[0]]] + Chars(s[1..])
  }

  /**
   * Python `o.get(key, [])` for a list field, as the merges iterate it with
   * `set(...)`: a list of strings gives its items, and a string that the model
   * put where a list belongs gives its characters.
   */
  function GetList(o: Object, key: string): seq<string> {
    if key !in o then []
    else match o[key]
      case Strs(items) => items
      case Str(s) => Chars(s)
      case Obj(_) => []
  }

  /** Python `o.get(key, default)` for a string field. */
  function GetStr(o: Object, key: string, default: string): string {
    if key in o && o[key].Str? then o[key].s else default
  }

  /** Python `o.get(key, {})` for a nested object. */
  function GetObj(o: Object, key: string): Object {
    if key in o && o[key].Obj? then o[key].fields else map[]
  }

  /** Python `"error" in o`: the record is an error marker. */
  predicate IsError(o: Object) {
    "error" in o
  }

  /** Both merges replace an error marker by `{}` before reading it. */
  function AsSource(o: Object): (r: Object)
    ensures !IsError(r)
    ensures IsError(o) ==> r == map[]
    ensures !IsError(o) ==> r == o
  {
    if IsError(o) then map[] else o
  }

  /** `{"error": message}`. */
  function ErrorRecord(message: string): (o: Object)
    ensures IsError(o) && GetStr(o, "error", "") == message
  {
    map["error" := Str(message)]
  }

  /** `{"error": message, "raw_response": raw}`. */
  function ErrorWithRaw(message: string, raw: string): (o: Object)
    ensures IsError(o) && GetStr(o, "error", "") == message
    ensures GetStr(o, "raw_response", "") == raw
  {
    map["error" := Str(message), "raw_response" := Str(raw)]
  }
}
