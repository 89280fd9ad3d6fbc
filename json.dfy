/** JSON-like values: the payloads and metadata dictionaries that the server
    stores with each point are `dict[str, Any]` in the source. */
module Json {

  datatype Json =
    | Null
    | Bool(b: bool)
    | Number(r: real)
    | Str(s: string)
    | Array(items: seq<Json>)
    | Object(fields: map<string, Json>)

  /** `Metadata = dict[str, Any]` (qdrant.py). */
  type Metadata = map<string, Json>

  /** A list of strings as a JSON array (the `tags` argument of a note). */
  function StrArray(xs: seq<string>): (j: Json)
    ensures j.Array? && |j.items| == |xs|
    ensures forall i | 0 <= i < |xs| :: j.items[i] == Str(xs[i])
  {
    Array(seq(|xs|, i requires 0 <= i < |xs| => Str(xs[i])))
  }
}
