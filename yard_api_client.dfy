/**
 * The request shaping of the log-management ("yard") API client: query strings, endpoint
 * paths, the JSON payloads of the create calls, and the status check that settles every
 * response. Getting the authentication token, resolving the yard host and the HTTPS
 * exchange itself are outside the model; a response arrives as its status code and text.
 */
module YardApiClient {
  import opened Wrappers
  import opened JsText
  import opened Json

  // ---------------------------------------------------------------- query strings

  /** One `{name, value}` element of a request's `args`. */
  datatype QueryArg = QueryArg(name: string, value: string)

  function Pair(arg: QueryArg): string {
    arg.name + "=" + arg.value
  }

  function Pairs(args: seq<QueryArg>): (ps: seq<string>)
    ensures |ps| == |args|
    ensures forall i :: 0 <= i < |args| ==> ps[i] == Pair(args[i])
  {
    if args == [] then [] else [Pair(args[0])] + Pairs(args[1..])
  }

  /** `getQueryString`: empty for no arguments, else `?` and the `name=value` pairs joined by `&`, unescaped. */
  function GetQueryString(args: seq<QueryArg>): (q: string)
    ensures args == [] <==> q == ""
    ensures args != [] ==> q[0] == '?'
  {
    if |args| == 0 then "" else "?" + Join(Pairs(args), "&")
  }

  /**
   * When no name or value contains `&`, the query string is read back pair by pair, in
   * the order of `args`; when no name contains `=`, each name is the text before the first `=`.
   */
  lemma QueryStringRoundTrip(args: seq<QueryArg>)
    requires args != []
    requires forall i :: 0 <= i < |args| ==> '&' !in args[i].name && '&' !in args[i].value
    ensures var q := GetQueryString(args);
      && Split(q[1..], '&') == Pairs(args)
      && forall i :: 0 <= i < |args| && '=' !in args[i].name ==>
           IndexOf(Split(q[1..], '&')[i], '=') == |args[i].name|
  {
    var ps := Pairs(args);
    forall k | 0 <= k < |ps|
      ensures '&' !in ps[k]
    {
      assert ps[k] == args[k].name + "=" + args[k].value;
    }
    SplitJoin(ps, '&');
    forall i | 0 <= i < |args| && '=' !in args[i].name
      ensures IndexOf(ps[i], '=') == |args[i].name|
    {
      IndexOfAfterPiece(args[i].name, '=', args[i].value);
    }
  }

  /** The query string of two arguments, written out. */
  lemma TwoArgQuery(a: QueryArg, b: QueryArg)
    ensures GetQueryString([a, b]) == "?" + a.name + "=" + a.value + "&" + b.name + "=" + b.value
  {
    var args := [a, b];
    assert args[1..] == [b] && args[1..][1..] == [];
    assert Pairs(args) == [Pair(a), Pair(b)];
    JoinCons(Pair(a), [Pair(b)], "&");
  }

  // ---------------------------------------------------------------- endpoint paths

  const BaseSourceUrl := "/sources/v1/"

  /** The three collections of a customer's account. */
  datatype Collection = Sources | Credentials | Policies

  function CollectionName(c: Collection): string {
    match c
    case Sources => "sources"
    case Credentials => "credentials"
    case Policies => "policies"
  }

  /** The get and create endpoint: `/sources/v1/<customerId>/<collection>`. */
  function CollectionUrl(customerId: string, c: Collection): string {
    BaseSourceUrl + customerId + "/" + CollectionName(c)
  }

  /** The delete endpoint: the collection endpoint, `/` and the item's id. */
  function ItemUrl(customerId: string, c: Collection, id: string): string {
    CollectionUrl(customerId, c) + "/" + id
  }

  /**
   * For a customer id and an item id without `/`, the path segments of the endpoints are
   * exactly the base, the customer, the collection and the item.
   */
  lemma UrlSegments(customerId: string, c: Collection, id: string)
    requires '/' !in customerId && '/' !in id
    ensures Split(CollectionUrl(customerId, c), '/') == ["", "sources", "v1", customerId, CollectionName(c)]
    ensures Split(ItemUrl(customerId, c, id), '/') == ["", "sources", "v1", customerId, CollectionName(c), id]
  {
    var parts := ["", "sources", "v1", customerId, CollectionName(c)];
    CollectionUrlJoin(customerId, c);
    SplitJoin(parts, '/');
    JoinSnoc(parts, id, "/");
    SplitJoin(parts + [id], '/');
  }

  lemma CollectionUrlJoin(customerId: string, c: Collection)
    ensures Join(["", "sources", "v1", customerId, CollectionName(c)], "/") == CollectionUrl(customerId, c)
  {
    var name := CollectionName(c);
    JoinCons(customerId, [name], "/");
    JoinCons("v1", [customerId, name], "/");
    JoinCons("sources", ["v1", customerId, name], "/");
    JoinCons("", ["sources", "v1", customerId, name], "/");
  }

  lemma {:induction false} JoinSnoc(parts: seq<string>, last: string, sep: string)
    requires 1 <= |parts|
    ensures Join(parts + [last], sep) == Join(parts, sep) + sep + last
  {
    if |parts| == 1 {
      JoinCons(parts[0], [last], sep);
    } else {
      JoinSnoc(parts[1..], last, sep);
      assert parts + [last] == [parts[0]] + (parts[1..] + [last]);
      JoinCons(parts[0], parts[1..] + [last], sep);
      assert parts == [parts[0]] + parts[1..];
      JoinCons(parts[0], parts[1..], sep);
    }
  }

  // ---------------------------------------------------------------- requests and responses

  datatype HttpMethod = GET | POST | DELETE

  /** What the client hands to the HTTPS layer: the method, the path and the JSON body. */
  datatype Request = Request(verb: HttpMethod, path: string, body: Option<Json>)

  /** `get`: the collection endpoint with the query string of `args` and no body. */
  function GetRequest(url: string, args: seq<QueryArg>): (r: Request)
    ensures r.verb == GET && r.body == None
    ensures |url| <= |r.path| && r.path[..|url|] == url && r.path[|url|..] == GetQueryString(args)
  {
    Request(GET, url + GetQueryString(args), None)
  }

  function PostRequest(url: string, payload: Json): (r: Request)
    ensures r.verb == POST && r.path == url && r.body == Some(payload)
  {
    Request(POST, url, Some(payload))
  }

  function DeleteRequest(url: string): (r: Request)
    ensures r.verb == DELETE && r.path == url && r.body == None
  {
    Request(DELETE, url, None)
  }

  /** The only status each method accepts. */
  function SuccessStatus(m: HttpMethod): int {
    match m
    case GET => 200
    case POST => 201
    case DELETE => 204
  }

  /** `errorFromResult`: the rejection value of a response with any other status. */
  datatype ApiError = ApiError(errorCode: int, message: string)

  /** The `end` handler: resolve with the response text or reject with `errorFromResult`. */
  function Settle(m: HttpMethod, statusCode: int, statusMessage: string, body: string): (r: Result<string, ApiError>)
    ensures r.Success? <==> statusCode == SuccessStatus(m)
    ensures r.Success? ==> r.value == body
    ensures r.Failure? ==> r.error == ApiError(statusCode, statusMessage)
  {
    if statusCode != SuccessStatus(m) then Failure(ApiError(statusCode, statusMessage))
    else Success(body)
  }

  /** A status that settles one method is an error for the other two. */
  lemma StatusesDistinct(m: HttpMethod, n: HttpMethod, body: string)
    requires m != n
    ensures Settle(n, SuccessStatus(m), "", body).Failure?
  {
  }

  // ---------------------------------------------------------------- payloads

  /** The credential settings a caller passes to `createCredentials`. */
  datatype CredentialsSpec = CredentialsSpec(credType: string, arn: string, externalId: string)

  /** Either the request that is posted or the value returned without posting. */
  datatype Outcome = Posted(request: Request) | Returned(text: string)

  const UnsupportedCredentials := "Unsupported credentials type specified."

  function CredentialPayload(name: string, cred: CredentialsSpec): Json {
    JObject([("credential", JObject([
      ("type", JString(cred.credType)),
      ("name", JString(name)),
      ("iam_role", JObject([("arn", JString(cred.arn)), ("external_id", JString(cred.externalId))]))]))])
  }

  /** `createCredentials`: only the `iam_role` type is posted. */
  function CreateCredentials(customerId: string, name: string, cred: CredentialsSpec): (o: Outcome)
    ensures cred.credType == "iam_role" <==> o.Posted?
    ensures o.Returned? ==> o.text == UnsupportedCredentials
    ensures o.Posted? ==> o.request == PostRequest(CollectionUrl(customerId, Credentials), CredentialPayload(name, cred))
  {
    if cred.credType == "iam_role" then
      Posted(PostRequest(CollectionUrl(customerId, Credentials), CredentialPayload(name, cred)))
    else Returned(UnsupportedCredentials)
  }

  /**
   * The policy object after `createPolicy` has coerced it: `default` through `toBoolean`,
   * then `multiline.is_multiline` when there is a `multiline` property. In strict mode,
   * assigning a property of a primitive or `null` throws a `TypeError`; an array takes the
   * property, but `JSON.stringify` does not show it, so an array is posted as it was.
   */
  function CoercePolicy(policy: Json): (r: Result<Json, string>)
    ensures r.Failure? <==>
      || (!policy.JObject? && !policy.JArray?)
      || (policy.JObject? && var m := Get(policy.fields, "multiline"); m.Some? && !m.value.JObject? && !m.value.JArray?)
  {
    if policy.JArray? then Success(policy)
    else if !policy.JObject? then Failure("TypeError")
    else
      var p := CoerceProperty(policy.fields, "default");
      CoerceOtherKey(policy.fields, "default", "multiline");
      match Get(p, "multiline")
      case None => Success(JObject(p))
      case Some(m) =>
        if m.JArray? then Success(JObject(p))
        else if !m.JObject? then Failure("TypeError")
        else Success(JObject(Set(p, "multiline", JObject(CoerceProperty(m.fields, "is_multiline")))))
  }

  /** `payload[type] = policy; payload.name = name; payload.type = type`, then `{policy: payload}`. */
  function PolicyPayload(policyType: string, name: string, policy: Json): Json {
    JObject([("policy", JObject(Set(Set([(policyType, policy)], "name", JString(name)), "type", JString(policyType))))])
  }

  /**
   * The payload holds the name and the type; the policy sits under the type's key unless
   * that key is `name` or `type`, whose later assignments overwrite it.
   */
  lemma PolicyPayloadFields(policyType: string, name: string, policy: Json)
    ensures var fs := PolicyPayload(policyType, name, policy).fields[0].1.fields;
      && Get(fs, "name") == Some(JString(name))
      && Get(fs, "type") == Some(JString(policyType))
      && (policyType != "name" && policyType != "type" ==>
            Keys(fs) == [policyType, "name", "type"] && Get(fs, policyType) == Some(policy))
      && (policyType == "name" ==> Keys(fs) == ["name", "type"])
      && (policyType == "type" ==> Keys(fs) == ["type", "name"])
  {
    var fs := PolicyPayload(policyType, name, policy).fields[0].1.fields;
    PayloadLayout(policyType, name, policy);
    var n, t := ("name", JString(name)), ("type", JString(policyType));
    if policyType == "name" {
      TwoFields(fs, n, t);
    } else if policyType == "type" {
      TwoFields(fs, t, n);
    } else {
      ThreeFields(fs, (policyType, policy), n, t);
    }
  }

  lemma TwoFields(fs: seq<(string, Json)>, f0: (string, Json), f1: (string, Json))
    requires fs == [f0, f1] && f0.0 != f1.0
    ensures Keys(fs) == [f0.0, f1.0]
    ensures Get(fs, f0.0) == Some(f0.1) && Get(fs, f1.0) == Some(f1.1)
  {
    assert fs[1..] == [f1] && fs[1..][1..] == [];
  }

  lemma ThreeFields(fs: seq<(string, Json)>, f0: (string, Json), f1: (string, Json), f2: (string, Json))
    requires fs == [f0, f1, f2] && f0.0 != f1.0 && f0.0 != f2.0 && f1.0 != f2.0
    ensures Keys(fs) == [f0.0, f1.0, f2.0]
    ensures Get(fs, f0.0) == Some(f0.1) && Get(fs, f1.0) == Some(f1.1) && Get(fs, f2.0) == Some(f2.1)
  {
    TwoFields(fs[1..], f1, f2);
  }

  lemma PayloadLayout(policyType: string, name: string, policy: Json)
    ensures var fs := PolicyPayload(policyType, name, policy).fields[0].1.fields;
      var n, t := ("name", JString(name)), ("type", JString(policyType));
      && (policyType == "name" ==> fs == [n, t])
      && (policyType == "type" ==> fs == [t, n])
      && (policyType != "name" && policyType != "type" ==> fs == [(policyType, policy), n, t])
  {
    var n, t := ("name", JString(name)), ("type", JString(policyType));
    if policyType == "name" {
      assert Set([(policyType, policy)], "name", n.1) == [n];
      assert [n][1..] == [];
      assert Set([n], "type", t.1) == [n] + Set([], "type", t.1);
    } else {
      var f2 := [(policyType, policy), n];
      assert [(policyType, policy)][1..] == [];
      assert Set([(policyType, policy)], "name", n.1) == f2;
      if policyType != "type" {
        assert f2[1..] == [n] && [n][1..] == [];
        assert Set(f2, "type", t.1) == [f2[0]] + Set([n], "type", t.1);
        assert Set([n], "type", t.1) == [n] + Set([], "type", t.1);
      }
    }
  }

  /** `createPolicy`: the coerced policy under its type, the name and the type, posted to the policies endpoint. */
  function CreatePolicy(customerId: string, policyType: string, name: string, policy: Json): (r: Result<Request, string>)
    ensures r.Success? <==> CoercePolicy(policy).Success?
    ensures r.Success? ==> r.value.verb == POST && r.value.path == CollectionUrl(customerId, Policies)
    ensures r.Success? ==> r.value.body == Some(PolicyPayload(policyType, name, CoercePolicy(policy).value))
  {
    match CoercePolicy(policy)
    case Failure(e) => Failure(e)
    case Success(p) => Success(PostRequest(CollectionUrl(customerId, Policies), PolicyPayload(policyType, name, p)))
  }

  /**
   * Coercing again changes nothing; an array is posted as it was, and an object keeps its
   * keys and has no string `default` left.
   */
  lemma CoercePolicyIdempotent(policy: Json)
    requires CoercePolicy(policy).Success?
    ensures var p := CoercePolicy(policy).value;
      && (policy.JArray? ==> p == policy)
      && (policy.JObject? ==>
            && p.JObject?
            && Keys(p.fields) == Keys(policy.fields)
            && (Get(p.fields, "default").Some? ==> !Get(p.fields, "default").value.JString?))
      && CoercePolicy(p) == Success(p)
  {
    if policy.JObject? {
      var p0 := CoerceProperty(policy.fields, "default");
      CoercedStable(policy.fields, "default");
      CoerceOtherKey(policy.fields, "default", "multiline");
      match Get(p0, "multiline")
      case None =>
      case Some(m) =>
        if m.JObject? {
          var m1 := CoerceProperty(m.fields, "is_multiline");
          CoercedStable(m.fields, "is_multiline");
          var p1 := Set(p0, "multiline", JObject(m1));
          SetKeys(p0, "multiline", JObject(m1));
          GetSetOther(p0, "multiline", "default", JObject(m1));
          GetSetSame(p0, "multiline", JObject(m1));
          CoerceUnchanged(p1, "default");
          assert CoerceProperty(p1, "default") == p1;
          assert Set(p1, "multiline", JObject(m1)) == p1 by {
            SetExisting(p0, "multiline", JObject(m1));
          }
        }
    }
  }

  /**
   * What coercion does to a policy object: `default` becomes `toBoolean` of its old value,
   * every property other than `default` and `multiline` keeps its value, and `multiline`
   * is the old one with `is_multiline` coerced (an array is kept as it is).
   */
  lemma CoercePolicyFields(policy: Json)
    requires policy.JObject? && CoercePolicy(policy).Success?
    ensures var r := CoercePolicy(policy).value;
      var d := Get(policy.fields, "default");
      && r.JObject?
      && (d.None? ==> Get(r.fields, "default").None?)
      && (d.Some? ==> Get(r.fields, "default") == Some(ToBoolean(d.value)))
      && (forall k :: k != "default" && k != "multiline" ==> Get(r.fields, k) == Get(policy.fields, k))
      && (match Get(policy.fields, "multiline")
          case None => Get(r.fields, "multiline").None?
          case Some(m) =>
            Get(r.fields, "multiline") == Some(if m.JObject? then JObject(CoerceProperty(m.fields, "is_multiline")) else m))
  {
    var p0 := CoerceProperty(policy.fields, "default");
    CoercePropertyGet(policy.fields, "default");
    match Get(policy.fields, "multiline")
    case None =>
    case Some(m) =>
      if m.JObject? {
        var v := JObject(CoerceProperty(m.fields, "is_multiline"));
        GetSetSame(p0, "multiline", v);
        GetSetOther(p0, "multiline", "default", v);
        forall k | k != "default" && k != "multiline"
          ensures Get(Set(p0, "multiline", v), k) == Get(policy.fields, k)
        {
          GetSetOther(p0, "multiline", k, v);
        }
      }
  }

  /** Coercing a property twice is coercing it once, and the coerced value is not a string. */
  lemma CoercedStable(fields: seq<(string, Json)>, key: string)
    ensures var r := CoerceProperty(fields, key);
      && CoerceProperty(r, key) == r
      && (Get(r, key).Some? ==> !Get(r, key).value.JString?)
  {
    match Get(fields, key)
    case None =>
    case Some(v) =>
      var r := Set(fields, key, ToBoolean(v));
      GetSetSame(fields, key, ToBoolean(v));
      SetExisting(fields, key, ToBoolean(v));
  }

  /** A property whose value is not a string is left as it is. */
  lemma CoerceUnchanged(fields: seq<(string, Json)>, key: string)
    requires Get(fields, key).Some? ==> !Get(fields, key).value.JString?
    ensures CoerceProperty(fields, key) == fields
  {
    if Get(fields, key).Some? {
      SetToItself(fields, key);
    }
  }

  lemma CoerceOtherKey(fields: seq<(string, Json)>, key: string, other: string)
    requires key != other
    ensures Get(CoerceProperty(fields, key), other) == Get(fields, other)
  {
    if Get(fields, key).Some? {
      GetSetOther(fields, key, other, ToBoolean(Get(fields, key).value));
    }
  }

  /** Assigning a key the value it already has changes nothing. */
  lemma {:induction false} SetToItself(fields: seq<(string, Json)>, key: string)
    requires Get(fields, key).Some?
    ensures Set(fields, key, Get(fields, key).value) == fields
  {
    if fields[0].0 != key {
      SetToItself(fields[1..], key);
    }
  }

  /** Assigning right after assigning the same value is no change. */
  lemma {:induction false} SetExisting(fields: seq<(string, Json)>, key: string, value: Json)
    ensures Set(Set(fields, key, value), key, value) == Set(fields, key, value)
  {
    if fields != [] && fields[0].0 != key {
      SetExisting(fields[1..], key, value);
    }
  }

  /**
   * `createSource`: the source with `enabled` coerced by `toBoolean`, wrapped as `{source}`.
   * As for policies, a primitive or `null` source throws, and an array is posted as it was.
   */
  function CreateSource(customerId: string, source: Json): (r: Result<Request, string>)
    ensures r.Failure? <==> !source.JObject? && !source.JArray?
    ensures r.Success? ==>
      && r.value.verb == POST && r.value.path == CollectionUrl(customerId, Sources)
      && r.value.body.Some? && r.value.body.value.JObject?
      && Keys(r.value.body.value.fields) == ["source"]
    ensures source.JArray? ==> r.Success? && r.value.body == Some(JObject([("source", source)]))
    ensures source.JObject? ==>
      && r.Success?
      && var posted := r.value.body.value.fields[0].1;
      && posted.JObject? && Keys(posted.fields) == Keys(source.fields)
      && (Get(source.fields, "enabled").None? ==> Get(posted.fields, "enabled").None?)
      && (Get(source.fields, "enabled").Some? ==>
            Get(posted.fields, "enabled") == Some(ToBoolean(Get(source.fields, "enabled").value)))
      && forall k :: k != "enabled" ==> Get(posted.fields, k) == Get(source.fields, k)
  {
    if source.JArray? then
      var body := [("source", source)];
      assert Keys(body) == ["source"] by { assert body[1..] == []; }
      Success(PostRequest(CollectionUrl(customerId, Sources), JObject(body)))
    else if !source.JObject? then Failure("TypeError")
    else
      CoercePropertyGet(source.fields, "enabled");
      var body := [("source", JObject(CoerceProperty(source.fields, "enabled")))];
      assert Keys(body) == ["source"] by { assert body[1..] == []; }
      Success(PostRequest(CollectionUrl(customerId, Sources), JObject(body)))
  }
}
