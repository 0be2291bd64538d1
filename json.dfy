/**
 * The JSON values the API client and the setup code build and edit. An object is an
 * association list in insertion order, the order `JSON.stringify` writes its keys in;
 * a property that JavaScript would hold as `undefined` is simply absent, as it is from
 * the serialized text.
 */
module Json {
  import opened Wrappers

  datatype Json =
    | JNull
    | JBool(b: bool)
    | JNumber(n: int)
    | JString(s: string)
    | JArray(items: seq<Json>)
    | JObject(fields: seq<(string, Json)>)

  /** No key occurs twice, as in every JavaScript object. */
  predicate UniqueKeys(fields: seq<(string, Json)>) {
    forall i, j :: 0 <= i < j < |fields| ==> fields[i].0 != fields[j].0
  }

  function Keys(fields: seq<(string, Json)>): (ks: seq<string>)
    ensures |ks| == |fields|
    ensures forall i :: 0 <= i < |fields| ==> ks[i] == fields[i].0
  {
    if fields == [] then [] else [fields[0].0] + Keys(fields[1..])
  }

  /** Property lookup: the value stored under `key`, if there is one. */
  function Get(fields: seq<(string, Json)>, key: string): (r: Option<Json>)
    ensures r.None? <==> key !in Keys(fields)
    ensures r.Some? ==> exists i :: 0 <= i < |fields| && fields[i] == (key, r.value)
  {
    if fields == [] then None
    else if fields[0].0 == key then Some(fields[0].1)
    else Get(fields[1..], key)
  }

  /**
   * Property assignment `o[key] = value`: an existing property keeps its place and takes
   * the new value, a new one is added after all the others.
   */
  function Set(fields: seq<(string, Json)>, key: string, value: Json): seq<(string, Json)> {
    if fields == [] then [(key, value)]
    else if fields[0].0 == key then [(key, value)] + fields[1..]
    else [fields[0]] + Set(fields[1..], key, value)
  }

  lemma {:induction false} GetSetSame(fields: seq<(string, Json)>, key: string, value: Json)
    ensures Get(Set(fields, key, value), key) == Some(value)
  {
    if fields != [] && fields[0].0 != key {
      GetSetSame(fields[1..], key, value);
    }
  }

  lemma {:induction false} GetSetOther(fields: seq<(string, Json)>, key: string, other: string, value: Json)
    requires other != key
    ensures Get(Set(fields, key, value), other) == Get(fields, other)
  {
    if fields != [] && fields[0].0 != key {
      GetSetOther(fields[1..], key, other, value);
    }
  }

  /** Assigning to an existing key keeps the key order; a new key goes last. */
  lemma {:induction false} SetKeys(fields: seq<(string, Json)>, key: string, value: Json)
    ensures key in Keys(fields) ==> Keys(Set(fields, key, value)) == Keys(fields)
    ensures key !in Keys(fields) ==> Keys(Set(fields, key, value)) == Keys(fields) + [key]
  {
    if fields != [] && fields[0].0 != key {
      SetKeys(fields[1..], key, value);
      assert Keys(fields) == [fields[0].0] + Keys(fields[1..]);
    }
  }

  lemma {:induction false} SetUnique(fields: seq<(string, Json)>, key: string, value: Json)
    requires UniqueKeys(fields)
    ensures UniqueKeys(Set(fields, key, value))
  {
    SetKeys(fields, key, value);
    var r := Set(fields, key, value);
    forall i, j | 0 <= i < j < |r|
      ensures r[i].0 != r[j].0
    {
      assert Keys(r)[i] == r[i].0 && Keys(r)[j] == r[j].0;
      if key !in Keys(fields) && j == |fields| {
        assert Keys(fields)[i] == r[i].0;
      } else {
        assert Keys(fields)[i] == r[i].0 && Keys(fields)[j] == r[j].0;
        assert fields[i].0 == Keys(fields)[i] && fields[j].0 == Keys(fields)[j];
      }
    }
  }

  /** `toBoolean`: a string becomes `value === "true"`, anything else is returned as it is. */
  function ToBoolean(value: Json): (r: Json)
    ensures value.JString? ==> r == JBool(value.s == "true")
    ensures !value.JString? ==> r == value
  {
    if value.JString? then JBool(value.s == "true") else value
  }

  lemma ToBooleanIdempotent(value: Json)
    ensures ToBoolean(ToBoolean(value)) == ToBoolean(value)
    ensures !ToBoolean(value).JString?
  {
  }

  /** `o[key] = toBoolean(o[key])` for a property that is present; an absent one stays absent. */
  function CoerceProperty(fields: seq<(string, Json)>, key: string): (r: seq<(string, Json)>)
    ensures Keys(r) == Keys(fields)
  {
    match Get(fields, key)
    case None => fields
    case Some(v) => SetKeys(fields, key, ToBoolean(v)); Set(fields, key, ToBoolean(v))
  }

  /** Coercing a property changes that property's value by `toBoolean` and no other property. */
  lemma CoercePropertyGet(fields: seq<(string, Json)>, key: string)
    ensures var r := CoerceProperty(fields, key);
      && (Get(fields, key).None? ==> Get(r, key).None?)
      && (Get(fields, key).Some? ==> Get(r, key) == Some(ToBoolean(Get(fields, key).value)))
      && forall other :: other != key ==> Get(r, other) == Get(fields, other)
  {
    match Get(fields, key)
    case None =>
    case Some(v) =>
      GetSetSame(fields, key, ToBoolean(v));
      forall other | other != key
        ensures Get(Set(fields, key, ToBoolean(v)), other) == Get(fields, other)
      {
        GetSetOther(fields, key, other, ToBoolean(v));
      }
  }
}
