/** A parsed JSON document, and the parts of the JSON library's token
    semantics that the provisioning and key-fetching code depends on.

    Parsing text into a `Json` value and rendering a non-string token as text
    are library code and stay outside the model: callers receive them as
    function parameters.
 */
module JsonValue {
  import opened Results

  datatype Json =
    | JNull
    | JBool(b: bool)
    | JNumber(text: string)
    | JString(s: string)
    | JArray(items: seq<Json>)
    | JObject(fields: map<string, Json>)

  /** The string key indexer of a token, `token[key]`, on a token that may be
      null. Indexing null throws; indexing an object yields the member, or
      null when it is absent; indexing a value or an array by a string throws.
   */
  function Member(token: Option<Json>, key: string): (r: Result<Option<Json>>)
    ensures r.Ok? <==> token.Some? && token.value.JObject?
    ensures r.Ok? ==> (r.value.Some? <==> key in token.value.fields)
    ensures r.Ok? && r.value.Some? ==> r.value.value == token.value.fields[key]
  {
    match token
    case Some(JObject(fields)) => Ok(if key in fields then Some(fields[key]) else None)
    case _ => Err(MalformedResponse(""))
  }

  /** `ToString()` of a token that may be null: null throws, a JSON null
      renders as the empty string, a string renders as itself, and every other
      token renders as the library's `render` says.
   */
  function TokenText(token: Option<Json>, render: Json -> string): (r: Result<string>)
    ensures r.Ok? <==> token.Some?
    ensures token == Some(JNull) ==> r == Ok("")
    ensures token.Some? && token.value.JString? ==> r == Ok(token.value.s)
  {
    match token
    case None => Err(MalformedResponse(""))
    case Some(JNull) => Ok("")
    case Some(JString(s)) => Ok(s)
    case Some(other) => Ok(render(other))
  }
}
