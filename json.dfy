/**
 The values the key-value store holds. Go keeps them as `interface{}` filled in by
 `encoding/json`; here they are an explicit tagged JSON value, compared structurally.
 */
module Json {

  /** A JSON value as `encoding/json` decodes one into an `interface{}`. */
  datatype JsonValue =
    | JNull
    | JBool(b: bool)
    | JNumber(n: real)
    | JString(s: string)
    | JArray(items: seq<JsonValue>)
    | JObject(fields: map<string, JsonValue>)

  /**
   The outcome of decoding bytes with `encoding/json`. The decoder itself is not
   modelled: callers receive what it produced, or the fact that it failed.
   */
  datatype Decoding<T> = Decoded(value: T) | Undecodable
}
