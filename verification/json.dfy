/**
 * JSON values as the metadata store holds them after `json.loads`, Python's
 * truthiness, `len` and iteration on them, and the foreign JSON codec the
 * store depends on, kept abstract as a record of function values with a
 * contract.
 */
module Json {
  import opened Wrappers
  import opened Text
  import opened Errors

  /** A decoded JSON document. Numbers are integers: the store never holds floats. */
  datatype Json =
    | JNull
    | JBool(b: bool)
    | JNum(n: int)
    | JStr(s: string)
    | JArr(items: seq<Json>)
    | JObj(fields: map<string, Json>)

  /** The empty object `{}`. */
  const EmptyObject: Json := JObj(map[])

  /** Python's `bool(value)`. */
  predicate Truthy(j: Json) {
    match j
    case JNull => false
    case JBool(b) => b
    case JNum(n) => n != 0
    case JStr(s) => |s| > 0
    case JArr(items) => |items| > 0
    case JObj(fields) => |fields| > 0
  }

  /** Python's `len(value)`; `None` stands for the `TypeError` of an unsized value. */
  function Len(j: Json): (r: Option<nat>)
    ensures r.Some? ==> (Truthy(j) <==> r.value > 0)
  {
    match j
    case JStr(s) => Some(|s|)
    case JArr(items) => Some(|items|)
    case JObj(fields) => Some(|fields|)
    case _ => None
  }

  /** Python's numeric view of a value: `bool` is an `int`; anything else is a `TypeError`. */
  function Num(j: Json): Option<int> {
    match j
    case JNum(n) => Some(n)
    case JBool(b) => Some(if b then 1 else 0)
    case _ => None
  }

  /**
   * Python's `str(value)` for the values whose text this model spells out:
   * scalars and empty containers. Non-empty containers are `None`.
   */
  function Str(j: Json): Option<string> {
    match j
    case JNull => Some("None")
    case JBool(b) => Some(if b then "True" else "False")
    case JNum(n) => Some(IntToString(n))
    case JStr(s) => Some(s)
    case JArr(items) => if |items| == 0 then Some("[]") else None
    case JObj(fields) => if |fields| == 0 then Some("{}") else None
  }

  /** Every falsy value has a printed form, so a message that embeds one can be built. */
  lemma FalsyHasStr(j: Json)
    requires !Truthy(j)
    ensures Str(j).Some?
  {
  }

  /** `j.get(key, default)`: only a dict has `get`. */
  function Get(j: Json, key: string, default: Json): (r: Result<Json, Error>)
    ensures r.Ok? <==> j.JObj?
    ensures r.Ok? && key in j.fields ==> r.value == j.fields[key]
    ensures r.Ok? && key !in j.fields ==> r.value == default
  {
    match j
    case JObj(fields) => Ok(if key in fields then fields[key] else default)
    case _ => Err(AttributeError)
  }

  /** `j[key]` with a string key: a missing key is a `KeyError`, a non-dict a `TypeError`. */
  function Index(j: Json, key: string): (r: Result<Json, Error>)
    ensures r.Ok? <==> j.JObj? && key in j.fields
    ensures r.Ok? ==> r.value == j.fields[key]
    ensures r.Err? ==> r.error == (if j.JObj? then KeyError(key) else TypeError)
  {
    match j
    case JObj(fields) => if key in fields then Ok(fields[key]) else Err(KeyError(key))
    case _ => Err(TypeError)
  }

  /** `j[key] = v`: a dict gains or replaces the key; anything else is a `TypeError`. */
  function SetKey(j: Json, key: string, v: Json): (r: Result<map<string, Json>, Error>)
    ensures r.Ok? <==> j.JObj?
    ensures r.Ok? ==> r.value.Keys == j.fields.Keys + {key} && r.value[key] == v
    ensures r.Ok? ==> forall k | k in j.fields && k != key :: r.value[k] == j.fields[k]
  {
    match j
    case JObj(fields) => Ok(fields[key := v])
    case _ => Err(TypeError)
  }

  /**
   * The foreign functions the metadata store relies on: `dumps` is
   * `json.dumps(..., indent=4)`, `loads` is `json.loads` (`None` for the
   * `ValueError` of malformed text), and `keyOrder` lists a decoded object's
   * keys in the order a `for` loop visits them, which is the order of the
   * decoded text.
   */
  datatype Codec = Codec(
    dumps: Json -> string,
    loads: string -> Option<Json>,
    keyOrder: map<string, Json> -> seq<string>)

  /** `ks` lists the keys of `m`, each of them once. */
  predicate ListsKeys(ks: seq<string>, m: map<string, Json>) {
    && |ks| == |m|
    && (forall k | k in ks :: k in m)
    && (forall k | k in m :: k in ks)
  }

  /**
   * The contract of the foreign functions: decoding an encoded value gives it
   * back, the text `{}` decodes to the empty object, and iterating an object
   * visits each of its keys once.
   */
  ghost predicate Lawful(c: Codec) {
    && (forall j :: c.loads(c.dumps(j)) == Some(j))
    && c.loads("{}") == Some(EmptyObject)
    && (forall m :: ListsKeys(c.keyOrder(m), m))
  }

  /**
   * The elements a `for` loop visits: a list's elements, a string's
   * characters (each a one-character string) and a dict's keys. Any other
   * value is not iterable, a `TypeError`.
   */
  function Items(c: Codec, j: Json): (r: Result<seq<Json>, Error>)
    ensures r.Ok? <==> j.JArr? || j.JStr? || j.JObj?
    ensures j.JArr? ==> r == Ok(j.items)
    ensures j.JStr? ==> r.Ok? && |r.value| == |j.s|
                        && forall i | 0 <= i < |j.s| :: r.value[i] == JStr([j.s[i]])
    ensures j.JObj? ==> r.Ok? && |r.value| == |c.keyOrder(j.fields)|
                        && forall i | 0 <= i < |r.value| :: r.value[i] == JStr(c.keyOrder(j.fields)[i])
  {
    match j
    case JArr(items) => Ok(items)
    case JStr(s) => Ok(seq(|s|, i requires 0 <= i < |s| => JStr([s[i]])))
    case JObj(fields) =>
      var ks := c.keyOrder(fields);
      Ok(seq(|ks|, i requires 0 <= i < |ks| => JStr(ks[i])))
    case _ => Err(TypeError)
  }

  /** Iterating a dict visits exactly its keys, as strings, one step per key. */
  lemma ItemsOfObject(c: Codec, j: Json)
    requires Lawful(c) && j.JObj?
    ensures |Items(c, j).value| == |j.fields|
    ensures forall x | x in Items(c, j).value :: x.JStr? && x.s in j.fields
    ensures forall k | k in j.fields :: JStr(k) in Items(c, j).value
  {
    var ks := c.keyOrder(j.fields);
    assert ListsKeys(ks, j.fields);
    var r := Items(c, j).value;
    forall k | k in j.fields
      ensures JStr(k) in r
    {
      var i :| 0 <= i < |ks| && ks[i] == k;
      assert r[i] == JStr(k);
    }
  }

  /** An iterable value visits nothing exactly when it is falsy. */
  lemma ItemsEmptyIffFalsy(c: Codec, j: Json)
    requires Lawful(c) && Items(c, j).Ok?
    ensures |Items(c, j).value| == 0 <==> !Truthy(j)
  {
    if j.JObj? {
      ItemsOfObject(c, j);
    }
  }
}
