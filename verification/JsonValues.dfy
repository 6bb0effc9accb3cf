/** JSON values, and how encoding/json reads single fields of them. */
module JsonValues {
  import opened Basics

  /** A JSON value. `Int` is a plain integer literal and `Number` any other number. */
  datatype Json =
    | Null
    | Bool(b: bool)
    | Int(n: int)
    | Number
    | Str(s: string)
    | Arr(items: seq<Json>)
    | Obj(fields: map<string, Json>)

  /** A json.RawMessage field: None when absent; null is kept as it is. */
  function RawField(fields: map<string, Json>, key: string): Option<Json> {
    if key in fields then Some(fields[key]) else None
  }

  /** A string field: null is a no-op, any other type an error (None). */
  function TextField(fields: map<string, Json>, key: string): Option<string> {
    if key !in fields || fields[key].Null? then Some("")
    else if fields[key].Str? then Some(fields[key].s)
    else None
  }

  /** A field asserted to be text, as `v, _ := o[key].(string)` does: "" for anything else. */
  function TextIn(j: Json, key: string): string {
    if j.Obj? && key in j.fields && j.fields[key].Str? then j.fields[key].s else ""
  }

  /** What a field must be to mean a text, said without reading it. */
  predicate HasText(o: map<string, Json>, key: string, s: string) {
    if key in o then o[key] == Str(s) || (o[key].Null? && s == "") else s == ""
  }

  predicate TextOrNothing(o: map<string, Json>, key: string) { key in o ==> o[key].Null? || o[key].Str? }

  /** A field whose text counts, whatever else it may hold. */
  predicate ShowsText(o: map<string, Json>, key: string, s: string) {
    if key in o && o[key].Str? then o[key] == Str(s) else s == ""
  }

  lemma TextIff(o: map<string, Json>, key: string, s: string)
    ensures TextField(o, key) == Some(s) <==> HasText(o, key, s)
    ensures TextField(o, key).Some? <==> TextOrNothing(o, key)
    ensures TextIn(Obj(o), key) == s <==> ShowsText(o, key, s)
  {}
}
