/** Parsed JSON and tolerant access to it: a value of the wrong shape reads as an absent or empty one. */
module JsonData {
  import opened Collections

  /** Numbers, booleans and null are unquoted primitives. */
  datatype Json = Prim(quoted: bool, content: string) | Arr(items: seq<Json>) | Obj(fields: map<string, Json>)

  type Fields = map<string, Json>

  const Null := Prim(false, "null")

  function Member(o: Fields, name: string): Option<Json> { if name in o then Some(o[name]) else None }

  /** The text of a quoted primitive member. */
  function Text(o: Fields, name: string): Option<string> {
    if name in o && o[name].Prim? && o[name].quoted then Some(o[name].content) else None
  }

  function FieldsOf(j: Json): Fields { if j.Obj? then j.fields else map[] }

  function Object(o: Fields, name: string): Fields { if name in o then FieldsOf(o[name]) else map[] }

  function List(o: Fields, name: string): seq<Json> { if name in o && o[name].Arr? then o[name].items else [] }

  const QuotedText := (j: Json) => if j.Prim? && j.quoted then Some(j.content) else None
}
