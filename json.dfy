/**
 * JSON values as the chat service sees them (RFC 8259), and the pair
 * JSON.stringify / JSON.parse taken as an abstract codec: the model does not
 * implement the JSON grammar, it only demands that parsing undoes
 * stringifying.
 */
module Json {
  import opened Wrappers

  /** A JavaScript value that survives JSON (numbers restricted to integers). */
  datatype Json =
    | JNull
    | JBool(b: bool)
    | JNumber(n: int)
    | JString(s: string)
    | JArray(items: seq<Json>)
    | JObject(fields: seq<(string, Json)>)

  /** JSON.stringify and JSON.parse; parse failure (a thrown SyntaxError) is None. */
  datatype JsonCodec = JsonCodec(stringify: Json -> string, parse: string -> Option<Json>)

  /** A value a JavaScript program can build: no object repeats a key. */
  predicate WellFormed(j: Json) {
    match j
    case JArray(items) => forall i :: 0 <= i < |items| ==> WellFormed(items[i])
    case JObject(fields) =>
      && (forall i, k :: 0 <= i < k < |fields| ==> fields[i].0 != fields[k].0)
      && (forall i :: 0 <= i < |fields| ==> WellFormed(fields[i].1))
    case _ => true
  }

  /** The one law the model relies on: parsing the text of a well-formed value gives the value back. */
  ghost predicate RoundTrips(c: JsonCodec) {
    forall j :: WellFormed(j) ==> c.parse(c.stringify(j)) == Some(j)
  }
}
