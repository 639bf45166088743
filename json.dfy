/**
 * JSON values as the handler and the pages see them, with the JavaScript
 * semantics the source applies to them: truthiness, optional-chaining
 * property access, conversion to a string and object spread.
 */
module Json {
  import opened Wrappers
  import opened JsString

  /** A JSON value. Numbers are integers; objects are maps from keys to values. */
  datatype Json =
    | JNull
    | JBool(b: bool)
    | JNum(n: int)
    | JString(s: string)
    | JArray(items: seq<Json>)
    | JObject(fields: map<string, Json>)

  /** A JavaScript value: a JSON value, or `undefined` (None). */
  type Value = Option<Json>

  /** JavaScript's ToBoolean: `undefined`, `null`, `false`, `0` and `""` are falsy. */
  predicate Truthy(v: Value) {
    match v
    case None => false
    case Some(JNull) => false
    case Some(JBool(b)) => b
    case Some(JNum(n)) => n != 0
    case Some(JString(s)) => s != ""
    case Some(JArray(_)) => true
    case Some(JObject(_)) => true
  }

  /**
   * `v?.[key]`: the own property `key` of `v`. An object yields its field,
   * an array or a string the element at a canonical index; `undefined` and
   * `null` short-circuit to `undefined`, as do numbers and booleans.
   */
  function Get(v: Value, key: string): Value {
    match v
    case Some(JObject(fields)) => if key in fields then Some(fields[key]) else None
    case Some(JArray(items)) =>
      var i := ParseIndex(key);
      if i.Some? && i.value < |items| then Some(items[i.value]) else None
    case Some(JString(s)) =>
      var i := ParseIndex(key);
      if i.Some? && i.value < |s| then Some(JString([s[i.value]])) else None
    case _ => None
  }

  /**
   * JavaScript's `String(v)`, as used by template literals and by
   * `JSON.parse` on its argument, for a value where it does not throw
   * (see `ToStringThrows`).
   */
  function JsToString(v: Json): string {
    match v
    case JNull => "null"
    case JBool(b) => if b then "true" else "false"
    case JNum(n) => IntToString(n)
    case JString(s) => s
    case JArray(items) => JoinItems(items)
    case JObject(_) => "[object Object]"
  }

  /**
   * `String(v)` throws a TypeError ("Cannot convert object to primitive
   * value"): an object with an own `toString` property hides the inherited
   * method, and as no JSON value is callable, ToPrimitive finds no method
   * that yields a primitive; an array throws when one of its elements does,
   * since `join` converts each of them. The same holds for the conversion
   * to a number that a relational comparison makes.
   */
  predicate ToStringThrows(v: Json) {
    match v
    case JObject(fields) => "toString" in fields
    case JArray(items) => exists i :: 0 <= i < |items| && ToStringThrows(items[i])
    case _ => false
  }

  /** `items.join(",")`, where a `null` element contributes the empty string. */
  function JoinItems(items: seq<Json>): string {
    if |items| == 0 then ""
    else
      (if items[0].JNull? then "" else JsToString(items[0]))
      + (if |items| == 1 then "" else "," + JoinItems(items[1..]))
  }

  /**
   * The own enumerable properties `{...v}` copies: an object's fields, an
   * array's or a string's elements under their index keys, and nothing for
   * any other value.
   */
  function Spread(v: Value): map<string, Json> {
    match v
    case Some(JObject(fields)) => fields
    case Some(JArray(items)) => ByIndex(items)
    case Some(JString(s)) => ByIndex(seq(|s|, i requires 0 <= i < |s| => JString([s[i]])))
    case _ => map[]
  }

  /** The elements of `vals` keyed by the spelling of their index. */
  function ByIndex(vals: seq<Json>): map<string, Json> {
    IndexKeysInjective();
    map i | 0 <= i < |vals| :: NatToString(i) := vals[i]
  }

  lemma IndexKeysInjective()
    ensures forall m: nat, n: nat :: NatToString(m) == NatToString(n) ==> m == n
  {
    forall m: nat, n: nat | NatToString(m) == NatToString(n) ensures m == n {
      NatToStringInjective(m, n);
    }
  }

  /** `ByIndex(vals)` holds exactly the canonical index keys below `|vals|`. */
  lemma ByIndexLookup(vals: seq<Json>, key: string)
    ensures key in ByIndex(vals) <==> ParseIndex(key).Some? && ParseIndex(key).value < |vals|
    ensures key in ByIndex(vals) ==> ByIndex(vals)[key] == vals[ParseIndex(key).value]
  {
    IndexKeysInjective();
    var i := ParseIndex(key);
    if i.Some? {
      NatToStringOfParseIndex(key, i.value);
    }
    if key in ByIndex(vals) {
      var j :| 0 <= j < |vals| && NatToString(j) == key;
      ParseIndexOfNatToString(j);
    }
  }

  /** Spreading copies exactly the properties `Get` reads: same keys, same values. */
  lemma SpreadAgreesWithGet(v: Value, key: string)
    ensures key in Spread(v) <==> Get(v, key).Some?
    ensures key in Spread(v) ==> Get(v, key) == Some(Spread(v)[key])
  {
    match v
    case Some(JArray(items)) =>
      ByIndexLookup(items, key);
    case Some(JString(s)) =>
      ByIndexLookup(seq(|s|, i requires 0 <= i < |s| => JString([s[i]])), key);
    case _ =>
  }
}
