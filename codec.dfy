/**
 * The JSON encoding of the initialization result, kept abstract.
 *
 * A stored or transmitted text is Encoded(doc), standing for every text that decodes to
 * doc (the encoding of doc, but also, in Go, `null` or `{}`, which decode to the zero
 * document), or Raw(s), a text that does not decode as a T at all. Decoding the encoding
 * gives the document back.
 */
module Codec {
  import opened Outcomes

  datatype Text<T> = Encoded(doc: T) | Raw(s: string)

  /** The response of the server's init call, as the Go client library declares it. */
  datatype InitResponse = InitResponse(
    keys: seq<string>,
    keysB64: seq<string>,
    recoveryKeys: seq<string>,
    recoveryKeysB64: seq<string>,
    rootToken: string)

  /** json.Marshal / serde_json serialization. */
  function Marshal<T>(doc: T): (t: Text<T>)
    ensures t.Encoded? && t.doc == doc
  {
    Encoded(doc)
  }

  /** json.Unmarshal / serde_json::from_str: fails exactly on the texts that do not decode. */
  function Unmarshal<T>(t: Text<T>): (r: Result<T>)
    ensures r.Ok? <==> t.Encoded?
    ensures r.Ok? ==> t == Marshal(r.value)
  {
    match t
    case Encoded(doc) => Ok(doc)
    case Raw(_) => Err("invalid JSON")
  }

  /** The empty text, as os.Getenv returns for an unset variable. */
  predicate IsEmptyText<T>(t: Text<T>) {
    t == Raw("")
  }
}
