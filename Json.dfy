/**
 * JSON values (RFC 8259) as the pipeline sees them after `json.loads`, and
 * the codec the pipeline parses and serialises with. The codec is a pair of
 * functions supplied from outside: the model does not re-implement a JSON
 * parser, it only relies on what `json.loads` returns (a value, or failure).
 */
module Json {
  import opened Common

  /** A parsed JSON document; objects are Python dicts (one value per key). */
  datatype JValue =
    | JNull
    | JBool(b: bool)
    | JNum(n: real)
    | JStr(s: string)
    | JArr(items: seq<JValue>)
    | JObj(fields: map<string, JValue>)

  /**
   * `parse` stands for `json.loads` (None when it raises JSONDecodeError),
   * `dump` for `json.dumps(..., ensure_ascii=False)`.
   */
  datatype JsonCodec = JsonCodec(parse: string -> Option<JValue>, dump: JValue -> string)

  /** Python truthiness of a parsed JSON value. */
  predicate Truthy(v: JValue)
  {
    match v
    case JNull => false
    case JBool(b) => b
    case JNum(n) => n != 0.0
    case JStr(s) => s != []
    case JArr(items) => items != []
    case JObj(fields) => fields != map[]
  }

  predicate IsObjectWith(v: JValue, key: string)
  {
    v.JObj? && key in v.fields
  }

  /** `d.get(key, default)` on a dict. */
  function GetOr(fields: map<string, JValue>, key: string, default: JValue): JValue
  {
    if key in fields then fields[key] else default
  }

  /**
   * The wrapper-key unwrapping used for model replies: a dict is replaced by
   * the value under the first of `keys` that it has, and a dict with none of
   * them becomes a one-element list; anything else is left alone.
   */
  function Unwrap(v: JValue, keys: seq<string>): (r: JValue)
    ensures !v.JObj? ==> r == v
    ensures v.JObj? && (forall k :: k in keys ==> k !in v.fields) ==> r == JArr([v])
  {
    if !v.JObj? then v
    else if keys == [] then JArr([v])
    else if keys[0] in v.fields then v.fields[keys[0]]
    else Unwrap(v, keys[1..])
  }

  /** The result of `Unwrap` is the value under the FIRST wrapper key present. */
  lemma {:induction false} UnwrapFirstPresent(v: JValue, keys: seq<string>, i: nat)
    requires v.JObj? && i < |keys| && keys[i] in v.fields
    requires forall j :: 0 <= j < i ==> keys[j] !in v.fields
    ensures Unwrap(v, keys) == v.fields[keys[i]]
  {
    if i > 0 {
      UnwrapFirstPresent(v, keys[1..], i - 1);
    }
  }
}
