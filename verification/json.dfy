/** The parsed request body: a JSON document as `json.loads` returns it,
    with Python's truthiness and `dict.get` navigation on top of it. */
module Json {
  import opened Py

  /** A JSON value. Objects are maps from key to value (duplicate keys in
      the text keep the last value, as `json.loads` does). */
  datatype Json =
    | JNull
    | JBool(b: bool)
    | JInt(n: int)
    | JString(s: string)
    | JArray(items: seq<Json>)
    | JObject(fields: map<string, Json>)

  /** The `{}` that `dict.get(key, {})` falls back to. */
  const EmptyObject: Json := JObject(map[])

  /** Python's `bool(v)` for a decoded JSON value. */
  predicate Truthy(v: Json) {
    match v
    case JNull => false
    case JBool(b) => b
    case JInt(n) => n != 0
    case JString(s) => s != ""
    case JArray(items) => |items| > 0
    case JObject(fields) => |fields| > 0
  }

  /** Exactly six values are falsy: `null`, `false`, `0`, `""`, `[]` and `{}`. */
  lemma FalsyValues(v: Json)
    ensures !Truthy(v) <==> v in {JNull, JBool(false), JInt(0), JString(""), JArray([]), EmptyObject}
  {
  }

  /** A truthy value is never `None`, so a truthiness check is at least as
      strict as a `!= None` check. */
  lemma TruthyIsNotNone(v: Json)
    requires Truthy(v)
    ensures v != JNull
  {
  }

  /** `v.get(key, default)`: raises unless `v` is a dict. */
  function Get(v: Json, key: string, default: Json): (r: Eval<Json>)
    ensures r.Raised? <==> !v.JObject?
    ensures r.Ok? && key in v.fields ==> r.value == v.fields[key]
    ensures r.Ok? && key !in v.fields ==> r.value == default
  {
    match v
    case JObject(fields) => Ok(if key in fields then fields[key] else default)
    case _ => Raised
  }

  /** `v.get(p0, {}).get(p1, {}) ... .get(pn)`: every intermediate lookup
      defaults to `{}`, the last one to `None`. */
  function Dig(v: Json, path: seq<string>): (r: Eval<Json>)
    requires |path| > 0
    ensures !v.JObject? ==> r == Raised
    ensures v == EmptyObject ==> r == Ok(JNull)
    decreases |path|
  {
    if |path| == 1 then Get(v, path[0], JNull)
    else
      match Get(v, path[0], EmptyObject)
      case Raised => Raised
      case Ok(w) => Dig(w, path[1..])
  }

  /** Reference reading of a key path: `leaf` is stored in `v` under `path`,
      every step a dict holding the next key. */
  predicate At(v: Json, path: seq<string>, leaf: Json)
    decreases |path|
  {
    if |path| == 0 then v == leaf
    else v.JObject? && path[0] in v.fields && At(v.fields[path[0]], path[1..], leaf)
  }

  /** A value stored under the path is what the `.get` chain finds. */
  lemma {:induction false} DigFinds(v: Json, path: seq<string>, leaf: Json)
    requires |path| > 0
    requires At(v, path, leaf)
    ensures Dig(v, path) == Ok(leaf)
    decreases |path|
  {
    if |path| > 1 {
      DigFinds(v.fields[path[0]], path[1..], leaf);
    }
  }

  /** Conversely, a value other than `None` that the chain returns is stored
      under the path: the `{}` defaults can only end in `None`. */
  lemma {:induction false} DigLocates(v: Json, path: seq<string>)
    requires |path| > 0
    requires Dig(v, path).Ok? && Dig(v, path).value != JNull
    ensures At(v, path, Dig(v, path).value)
    decreases |path|
  {
    if |path| > 1 {
      var w := v.fields[path[0]];
      DigLocates(w, path[1..]);
    }
  }

  /** The chain and the reference reading agree: every stored value is what
      the chain returns, and every value but `None` it returns is stored. */
  lemma DigAgreesWithAt(v: Json, path: seq<string>)
    requires |path| > 0
    ensures forall leaf :: At(v, path, leaf) ==> Dig(v, path) == Ok(leaf)
    ensures Dig(v, path).Ok? && Dig(v, path).value != JNull ==> At(v, path, Dig(v, path).value)
  {
    forall leaf | At(v, path, leaf)
      ensures Dig(v, path) == Ok(leaf)
    {
      DigFinds(v, path, leaf);
    }
    if Dig(v, path).Ok? && Dig(v, path).value != JNull {
      DigLocates(v, path);
    }
  }

  /** A truthy value is stored under the path. */
  ghost predicate TruthyAt(v: Json, path: seq<string>) {
    exists leaf :: At(v, path, leaf) && Truthy(leaf)
  }

  /** A key present with a non-dict value part-way along the chain makes the
      next `.get` raise. */
  lemma {:induction false} DigRaisesPastNonObject(v: Json, prefix: seq<string>, rest: seq<string>, w: Json)
    requires At(v, prefix, w)
    requires !w.JObject?
    requires |rest| > 0
    ensures Dig(v, prefix + rest) == Raised
    decreases |prefix|
  {
    if |prefix| > 0 {
      assert (prefix + rest)[0] == prefix[0];
      assert (prefix + rest)[1..] == prefix[1..] + rest;
      DigRaisesPastNonObject(v.fields[prefix[0]], prefix[1..], rest, w);
    }
  }

  /** A missing key part-way along the chain does not raise: the `{}` default
      carries the chain through to `None`. */
  lemma {:induction false} DigMissingKey(v: Json, prefix: seq<string>, rest: seq<string>, fields: map<string, Json>)
    requires At(v, prefix, JObject(fields))
    requires |rest| > 0 && rest[0] !in fields
    ensures Dig(v, prefix + rest) == Ok(JNull)
    decreases |prefix|
  {
    if |prefix| > 0 {
      assert (prefix + rest)[0] == prefix[0];
      assert (prefix + rest)[1..] == prefix[1..] + rest;
      DigMissingKey(v.fields[prefix[0]], prefix[1..], rest, fields);
    } else {
      assert prefix + rest == rest;
      if |rest| > 1 {
        assert Dig(v, rest) == Dig(EmptyObject, rest[1..]);
      }
    }
  }

  /** A chain whose first key is missing ends in `None`. */
  lemma DigAbsentKey(fields: map<string, Json>, path: seq<string>)
    requires |path| > 0 && path[0] !in fields
    ensures Dig(JObject(fields), path) == Ok(JNull)
  {
  }

  /** Replacing the value under one top-level key leaves every chain that
      starts with another key unchanged. */
  lemma DigIgnoresOtherKey(fields: map<string, Json>, key: string, value: Json, path: seq<string>)
    requires |path| > 0 && path[0] != key
    ensures Dig(JObject(fields[key := value]), path) == Dig(JObject(fields), path)
  {
  }
}
