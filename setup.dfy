/**
 * The deterministic part of the source setup and teardown: splitting the bucket setting,
 * editing the bucket's lifecycle rules so that the log files expire after a day, choosing
 * what to send back to S3, the credential guard and the source lookups of `createSource`
 * and `deleteSource`, and the per-format policy parameters of `createPolicy`.
 *
 * The S3 calls are a client that records the commands it is sent; what S3 answers to
 * `GetBucketLocation` and `GetBucketLifecycleConfiguration` is passed in. The answers
 * to the lifecycle PUT and DELETE are only logged, so they are not modelled.
 */
module Setup {
  import opened Wrappers
  import opened JsText
  import opened Json
  import opened S3Endpoint
  import opened YardApiClient

  // ---------------------------------------------------------------- bucket setting

  /**
   * `bucket.slice(0, i)` and `bucket.slice(i + 1)` for `i = bucket.indexOf('/')`: the
   * bucket name and the key prefix of a setting `name/prefix`.
   */
  function SplitBucket(bucket: string): (string, string) {
    var index := IndexOf(bucket, '/');
    (Slice(bucket, 0, index), SliceFrom(bucket, index + 1))
  }

  /** With a `/` the setting is the name, the first `/` and the prefix, and the name has no `/`. */
  lemma SplitBucketAtSlash(bucket: string)
    requires '/' in bucket
    ensures var (name, prefix) := SplitBucket(bucket);
      name + "/" + prefix == bucket && '/' !in name
  {
    var index := IndexOf(bucket, '/');
    assert bucket[..index] + "/" + bucket[index + 1..] == bucket;
  }

  /** Without a `/` the index is -1: the name loses its last character and the prefix is everything. */
  lemma SplitBucketWithoutSlash(bucket: string)
    requires '/' !in bucket
    ensures SplitBucket(bucket).1 == bucket
    ensures bucket != [] ==> SplitBucket(bucket).0 == bucket[..|bucket| - 1]
    ensures bucket == [] ==> SplitBucket(bucket).0 == []
  {
  }

  // ---------------------------------------------------------------- lifecycle rules

  /** One lifecycle rule as S3 returns it; a property S3 leaves out is `None`. */
  datatype Rule = Rule(prefix: Option<string>, id: Option<string>,
                       status: Option<string>, expirationDays: Option<int>)

  /** `{Prefix, Status: "Enabled", Expiration: {Days: 1}, ID: name}`. */
  function NewRule(prefix: string, name: string): Rule {
    Rule(Some(prefix), Some(name), Some("Enabled"), Some(1))
  }

  /** `operation === "add"`; every other operation string takes the removing branches. */
  datatype LifecycleOp = Add | Remove

  function OpOf(operation: string): (op: LifecycleOp)
    ensures op == Add <==> operation == "add"
  {
    if operation == "add" then Add else Remove
  }

  /** The first rule whose `Prefix` is `prefix`, or -1. */
  function FirstPrefixMatch(rules: seq<Rule>, prefix: string): (i: int)
    ensures -1 <= i < |rules|
    ensures 0 <= i ==> rules[i].prefix == Some(prefix)
    ensures 0 <= i ==> forall j :: 0 <= j < i ==> rules[j].prefix != Some(prefix)
    ensures i == -1 ==> forall j :: 0 <= j < |rules| ==> rules[j].prefix != Some(prefix)
  {
    if rules == [] then -1
    else if rules[0].prefix == Some(prefix) then 0
    else
      var j := FirstPrefixMatch(rules[1..], prefix);
      if j == -1 then -1 else j + 1
  }

  /** The rule list after `getS3Lifecycle` has edited it in place. */
  function EditedRules(rules: seq<Rule>, prefix: string, name: string, op: LifecycleOp): seq<Rule> {
    var i := FirstPrefixMatch(rules, prefix);
    if i == -1 then (if op == Add then rules + [NewRule(prefix, name)] else rules)
    else if op == Remove && rules[i].id == Some(name) then rules[..i] + rules[i + 1..]
    else rules
  }

  /** What `getS3Lifecycle` resolves to: the rules to put, `null`, or the error object it caught. */
  datatype LifecycleRules = RuleList(rules: seq<Rule>) | NoRules | ErrorObject(error: S3Error)

  /** The value returned for a fetched rule list. */
  function EditResult(rules: seq<Rule>, prefix: string, name: string, op: LifecycleOp): LifecycleRules {
    var i := FirstPrefixMatch(rules, prefix);
    var edited := EditedRules(rules, prefix, name, op);
    if i == -1 then (if op == Add then RuleList(edited) else NoRules)
    else if op == Remove && rules[i].id == Some(name) then (if edited == [] then NoRules else RuleList(edited))
    else RuleList(edited)
  }

  const NoSuchLifecycleConfiguration := "NoSuchLifecycleConfiguration"

  /** `getS3Lifecycle` over what the lifecycle GET answered. */
  function LifecycleOutcome(fetched: Result<seq<Rule>, S3Error>, prefix: string, name: string,
                            op: LifecycleOp): LifecycleRules
  {
    match fetched
    case Success(rules) => EditResult(rules, prefix, name, op)
    case Failure(e) =>
      if e.name == NoSuchLifecycleConfiguration then
        (if op == Add then RuleList([NewRule(prefix, name)]) else NoRules)
      else ErrorObject(e)
  }

  /** Number of rules with the given prefix. */
  function PrefixCount(rules: seq<Rule>, prefix: string): nat {
    if rules == [] then 0
    else PrefixCount(rules[..|rules| - 1], prefix) + (if rules[|rules| - 1].prefix == Some(prefix) then 1 else 0)
  }

  lemma {:induction false} PrefixCountZero(rules: seq<Rule>, prefix: string)
    ensures PrefixCount(rules, prefix) == 0 <==> FirstPrefixMatch(rules, prefix) == -1
  {
    if rules != [] {
      var init := rules[..|rules| - 1];
      PrefixCountZero(init, prefix);
      if FirstPrefixMatch(init, prefix) != -1 {
        var k := FirstPrefixMatch(init, prefix);
        assert rules[k] == init[k];
      } else {
        assert forall j :: 0 <= j < |init| ==> rules[j] == init[j];
      }
    }
  }

  /**
   * Adding when some rule already has the prefix returns the rules untouched, whatever that
   * rule's ID; otherwise the new rule is appended at the end.
   */
  lemma AddResult(rules: seq<Rule>, prefix: string, name: string)
    ensures FirstPrefixMatch(rules, prefix) != -1 ==>
      EditResult(rules, prefix, name, Add) == RuleList(rules)
    ensures FirstPrefixMatch(rules, prefix) == -1 ==>
      EditResult(rules, prefix, name, Add) == RuleList(rules + [NewRule(prefix, name)])
  {
  }

  /** After adding, exactly one rule has the prefix if none had it, and the count is unchanged otherwise. */
  lemma AddNoDuplicate(rules: seq<Rule>, prefix: string, name: string)
    ensures var n := PrefixCount(rules, prefix);
      PrefixCount(EditedRules(rules, prefix, name, Add), prefix) == if n == 0 then 1 else n
  {
    PrefixCountZero(rules, prefix);
    if FirstPrefixMatch(rules, prefix) == -1 {
      var edited := rules + [NewRule(prefix, name)];
      assert edited[..|edited| - 1] == rules;
    }
  }

  /** Adding is idempotent: a second add finds the rule the first one appended. */
  lemma AddIdempotent(rules: seq<Rule>, prefix: string, name: string)
    ensures var once := EditedRules(rules, prefix, name, Add);
      EditedRules(once, prefix, name, Add) == once && EditResult(once, prefix, name, Add) == RuleList(once)
  {
    var once := EditedRules(rules, prefix, name, Add);
    if FirstPrefixMatch(rules, prefix) == -1 {
      assert once[|rules|].prefix == Some(prefix);
    }
  }

  /**
   * Removing acts on the first rule with the prefix only: when its ID is the rule name it is
   * spliced out and every other rule keeps its order, `null` standing for an emptied list;
   * when the ID differs nothing changes, even if a later rule has both prefix and ID.
   */
  lemma RemoveResult(rules: seq<Rule>, prefix: string, name: string)
    requires FirstPrefixMatch(rules, prefix) != -1
    ensures var i := FirstPrefixMatch(rules, prefix);
      var rest := rules[..i] + rules[i + 1..];
      && (rules[i].id == Some(name) ==>
            && EditedRules(rules, prefix, name, Remove) == rest
            && multiset(rest) + multiset{rules[i]} == multiset(rules)
            && EditResult(rules, prefix, name, Remove) == (if |rules| == 1 then NoRules else RuleList(rest)))
      && (rules[i].id != Some(name) ==> EditResult(rules, prefix, name, Remove) == RuleList(rules))
  {
    var i := FirstPrefixMatch(rules, prefix);
    var rest := rules[..i] + rules[i + 1..];
    if rules[i].id == Some(name) {
      assert EditedRules(rules, prefix, name, Remove) == rest;
      assert |rest| == |rules| - 1;
      SpliceMultiset(rules, i);
    }
  }

  lemma SpliceMultiset(rules: seq<Rule>, i: int)
    requires 0 <= i < |rules|
    ensures multiset(rules[..i] + rules[i + 1..]) + multiset{rules[i]} == multiset(rules)
  {
    assert rules == rules[..i] + [rules[i]] + rules[i + 1..];
  }

  /** Removing a prefix no rule has is `null`: the whole configuration goes. */
  lemma RemoveAbsent(rules: seq<Rule>, prefix: string, name: string)
    requires FirstPrefixMatch(rules, prefix) == -1
    ensures EditResult(rules, prefix, name, Remove) == NoRules
  {
  }

  /** Adding a new rule and then removing it gives back the rules (`null` when there were none). */
  lemma AddThenRemove(rules: seq<Rule>, prefix: string, name: string)
    requires FirstPrefixMatch(rules, prefix) == -1
    ensures var added := EditedRules(rules, prefix, name, Add);
      EditResult(added, prefix, name, Remove) == if rules == [] then NoRules else RuleList(rules)
  {
    var added := rules + [NewRule(prefix, name)];
    AddFindsAppended(rules, prefix, name);
    assert added[..|rules|] + added[|rules| + 1..] == rules;
  }

  lemma AddFindsAppended(rules: seq<Rule>, prefix: string, name: string)
    requires FirstPrefixMatch(rules, prefix) == -1
    ensures FirstPrefixMatch(rules + [NewRule(prefix, name)], prefix) == |rules|
  {
    var added := rules + [NewRule(prefix, name)];
    assert added[|rules|].prefix == Some(prefix);
    assert forall j :: 0 <= j < |rules| ==> added[j] == rules[j];
  }

  // ---------------------------------------------------------------- the lifecycle update

  /** The lifecycle configuration S3 returned; `getS3Lifecycle` edits its `Rules` in place. */
  class LifecycleConfiguration {
    var rules: seq<Rule>

    constructor (rules: seq<Rule>)
      ensures this.rules == rules
    {
      this.rules := rules;
    }

    /** `Rules.splice(i, 1)`. */
    method Splice(i: nat)
      requires i < |rules|
      modifies this
      ensures rules == old(rules[..i] + rules[i + 1..])
    {
      rules := rules[..i] + rules[i + 1..];
    }

    /** `Rules.push(rule)`. */
    method Push(rule: Rule)
      modifies this
      ensures rules == old(rules) + [rule]
    {
      rules := rules + [rule];
    }
  }

  /** The rules of a lifecycle GET's answer, as a value. */
  function FetchedRules(fetched: Result<LifecycleConfiguration, S3Error>): Result<seq<Rule>, S3Error>
    reads if fetched.Success? then {fetched.value} else {}
  {
    match fetched
    case Success(config) => Success(config.rules)
    case Failure(e) => Failure(e)
  }

  /** `getS3Lifecycle`: the loop over the rules, the in-place edit and the catch. */
  method GetS3Lifecycle(fetched: Result<LifecycleConfiguration, S3Error>, prefix: string,
                        name: string, op: LifecycleOp) returns (result: LifecycleRules)
    modifies if fetched.Success? then {fetched.value} else {}
    ensures result == LifecycleOutcome(old(FetchedRules(fetched)), prefix, name, op)
    ensures fetched.Success? ==> fetched.value.rules == EditedRules(old(fetched.value.rules), prefix, name, op)
  {
    if fetched.Failure? {
      if fetched.error.name == NoSuchLifecycleConfiguration {
        return if op == Add then RuleList([NewRule(prefix, name)]) else NoRules;
      }
      return ErrorObject(fetched.error);
    }
    var data := fetched.value;
    var i := 0;
    while i < |data.rules|
      invariant 0 <= i <= |data.rules|
      invariant data.rules == old(data.rules)
      invariant forall j :: 0 <= j < i ==> data.rules[j].prefix != Some(prefix)
    {
      var rule := data.rules[i];
      if rule.prefix == Some(prefix) {
        assert FirstPrefixMatch(data.rules, prefix) == i;
        if op == Add {
          return RuleList(data.rules);
        } else if rule.id == Some(name) {
          data.Splice(i);
          return if |data.rules| > 0 then RuleList(data.rules) else NoRules;
        } else {
          return RuleList(data.rules);
        }
      }
      i := i + 1;
    }
    assert FirstPrefixMatch(data.rules, prefix) == -1;
    if op == Add {
      data.Push(NewRule(prefix, name));
      return RuleList(data.rules);
    }
    return NoRules;
  }

  /** The calls `setupLifecycle` makes after the edit. */
  datatype LifecycleCommand =
    | PutLifecycle(bucket: string, rules: LifecycleRules)
    | DeleteLifecycle(bucket: string)

  /**
   * `setupLifecycle`: `null` with add changes nothing, `null` otherwise deletes the whole
   * configuration, and anything else, a caught error object included, is put as the rules.
   */
  function SetupLifecycle(bucket: string, rules: LifecycleRules, op: LifecycleOp): (c: Option<LifecycleCommand>)
    ensures c.None? <==> rules.NoRules? && op == Add
    ensures rules.NoRules? && op == Remove ==> c == Some(DeleteLifecycle(bucket))
    ensures !rules.NoRules? ==> c == Some(PutLifecycle(bucket, rules))
  {
    if rules.NoRules? then (if op == Add then None else Some(DeleteLifecycle(bucket)))
    else Some(PutLifecycle(bucket, rules))
  }

  /**
   * A bucket without a lifecycle configuration gets one holding the new rule on add; when
   * the source is later removed, that configuration is deleted as a whole.
   */
  lemma FreshBucketRoundTrip(bucket: string, prefix: string, name: string)
    ensures var added := LifecycleOutcome(Failure(S3Error(NoSuchLifecycleConfiguration)), prefix, name, Add);
      && added == RuleList([NewRule(prefix, name)])
      && SetupLifecycle(bucket, added, Add) == Some(PutLifecycle(bucket, added))
      && LifecycleOutcome(Success(added.rules), prefix, name, Remove) == NoRules
      && SetupLifecycle(bucket, NoRules, Remove) == Some(DeleteLifecycle(bucket))
  {
    RemoveResult([NewRule(prefix, name)], prefix, name);
  }

  /** Any other error of the lifecycle GET is put back as if it were the rule list, on add and on remove. */
  lemma FetchErrorIsPut(bucket: string, e: S3Error, prefix: string, name: string, op: LifecycleOp)
    requires e.name != NoSuchLifecycleConfiguration
    ensures SetupLifecycle(bucket, LifecycleOutcome(Failure(e), prefix, name, op), op)
      == Some(PutLifecycle(bucket, ErrorObject(e)))
  {
  }

  /** The commands the S3 client of `updateBucketLifeCycle` is sent. */
  datatype SetupCommand =
    | GetBucketLocation(bucket: string)
    | GetBucketLifecycle(bucket: string)
    | Lifecycle(command: LifecycleCommand)

  class SetupS3Client {
    var endpoint: Option<string>
    var sent: seq<SetupCommand>

    constructor ()
      ensures endpoint == None && sent == []
    {
      endpoint := None;
      sent := [];
    }

    method Send(command: SetupCommand)
      modifies this
      ensures sent == old(sent) + [command] && endpoint == old(endpoint)
    {
      sent := sent + [command];
    }

    /** `getBucketLocation`, then the endpoint of the region it answered, if it answered. */
    method Locate(bucketName: string, location: Result<Option<string>, S3Error>)
      modifies this
      ensures sent == old(sent) + [GetBucketLocation(bucketName)]
      ensures endpoint == if location.Success? then Some("https://" + GetS3Endpoint(location.value)) else old(endpoint)
    {
      Send(GetBucketLocation(bucketName));
      if location.Success? {
        SetEndpoint("https://" + GetS3Endpoint(location.value));
      }
    }

    method SetEndpoint(url: string)
      modifies this
      ensures endpoint == Some(url) && sent == old(sent)
    {
      endpoint := Some(url);
    }
  }

  /** What `updateBucketLifeCycle` receives: the rule name and the bucket setting. */
  datatype LifecycleParams = LifecycleParams(name: string, bucket: string)

  /** The lifecycle commands of an update, after the edit of the fetched rules. */
  function LifecycleCommands(bucketName: string, outcome: LifecycleRules, op: LifecycleOp): seq<SetupCommand> {
    match SetupLifecycle(bucketName, outcome, op)
    case None => []
    case Some(c) => [Lifecycle(c)]
  }

  /**
   * `updateBucketLifeCycle`: split the bucket setting into the bucket name and the prefix,
   * then update that bucket's lifecycle.
   */
  method UpdateBucketLifeCycle(params: LifecycleParams, op: LifecycleOp,
                               location: Result<Option<string>, S3Error>,
                               fetched: Result<LifecycleConfiguration, S3Error>)
    returns (s3: SetupS3Client)
    modifies if fetched.Success? then {fetched.value} else {}
    ensures fresh(s3)
    ensures s3.endpoint == if location.Success? then Some("https://" + GetS3Endpoint(location.value)) else None
    ensures var split := SplitBucket(params.bucket);
      s3.sent == [GetBucketLocation(split.0), GetBucketLifecycle(split.0)]
        + LifecycleCommands(split.0, LifecycleOutcome(old(FetchedRules(fetched)), split.1, params.name, op), op)
  {
    var split := SplitBucket(params.bucket);
    s3 := UpdateLifecycle(split.0, split.1, params.name, op, location, fetched);
  }

  /**
   * The body of `updateBucketLifeCycle` once the bucket is split: locate the bucket and point
   * the client at its endpoint (a failed location is only logged), fetch and edit the rules,
   * and put or delete the configuration.
   */
  method UpdateLifecycle(bucketName: string, prefix: string, name: string, op: LifecycleOp,
                         location: Result<Option<string>, S3Error>,
                         fetched: Result<LifecycleConfiguration, S3Error>)
    returns (s3: SetupS3Client)
    modifies if fetched.Success? then {fetched.value} else {}
    ensures fresh(s3)
    ensures s3.endpoint == if location.Success? then Some("https://" + GetS3Endpoint(location.value)) else None
    ensures s3.sent == [GetBucketLocation(bucketName), GetBucketLifecycle(bucketName)]
      + LifecycleCommands(bucketName, LifecycleOutcome(old(FetchedRules(fetched)), prefix, name, op), op)
  {
    s3 := new SetupS3Client();
    s3.Locate(bucketName, location);
    s3.Send(GetBucketLifecycle(bucketName));
    var rules := GetS3Lifecycle(fetched, prefix, name, op);
    var command := SetupLifecycle(bucketName, rules, op);
    if command.Some? {
      s3.Send(Lifecycle(command.value));
    }
  }

  // ---------------------------------------------------------------- sources

  /** The arguments of `createSource` and `deleteSource` that the model uses. */
  datatype SourceArgs = SourceArgs(customerId: string, accessKeyId: string, secretKey: string,
                                   name: string, sourceType: string, bucket: string)

  /** An empty customer id, access key id or secret key makes both operations return `{id: ""}`. */
  predicate MissingCredentials(args: SourceArgs) {
    args.customerId == "" || args.accessKeyId == "" || args.secretKey == ""
  }

  /** The lifecycle rule of a source is named after it. */
  function LifecycleParamsFor(args: SourceArgs): (p: LifecycleParams)
    ensures p.name == args.name + "-rule" && p.bucket == args.bucket
  {
    LifecycleParams(args.name + "-rule", args.bucket)
  }

  /** The lookup `getSource` sends: sources of the type and with the name of the one set up. */
  function SourceLookup(args: SourceArgs): (r: Request)
    ensures r.verb == GET && r.body == None
    ensures r.path == CollectionUrl(args.customerId, Sources)
      + ("?" + "source.config.collection_type" + "=" + args.sourceType + "&" + "name" + "=" + args.name)
  {
    var a, b := QueryArg("source.config.collection_type", args.sourceType), QueryArg("name", args.name);
    TwoArgQuery(a, b);
    GetRequest(CollectionUrl(args.customerId, Sources), [a, b])
  }

  /** A source the lookup found, with the ids its deletion needs. */
  datatype SourceRecord = SourceRecord(collectionType: string, id: string,
                                       credentialId: string, policyId: string)

  /** How `createSource` and `deleteSource` end. */
  datatype SourceOutcome =
    | SourceId(id: string)          // `{id: ...}` returned directly
    | CreateNew                     // handed on to `createSourceImpl`
    | DeleteFound(source: SourceRecord)  // handed on to `deleteSourceImpl`
    | Rejected(error: string)       // the caught error is returned

  /** `createSource` after the lookup: an existing source of the same type is reused. */
  function CreateLookup(sources: seq<SourceRecord>, sourceType: string): (o: SourceOutcome)
    ensures o.SourceId? <==> |sources| > 0 && sources[0].collectionType == sourceType
    ensures o.SourceId? ==> o.id == sources[0].id
    ensures !o.SourceId? ==> o == CreateNew
  {
    if |sources| > 0 && sources[0].collectionType == sourceType then SourceId(sources[0].id)
    else CreateNew
  }

  /** `deleteSource` after a non-empty lookup: the first source is deleted when it has the type. */
  function DeleteLookup(sources: seq<SourceRecord>, sourceType: string): (o: SourceOutcome)
    ensures o.DeleteFound? <==> |sources| > 0 && sources[0].collectionType == sourceType
    ensures o.DeleteFound? ==> o.source == sources[0]
    ensures !o.DeleteFound? ==> o == SourceId("")
  {
    if |sources| > 0 && sources[0].collectionType == sourceType then DeleteFound(sources[0])
    else SourceId("")
  }

  /** The loop of `deleteSource`, which tests `sources[0]` on every iteration. */
  method FindSourceToDelete(sources: seq<SourceRecord>, sourceType: string) returns (found: Option<SourceRecord>)
    ensures found.Some? <==> |sources| > 0 && sources[0].collectionType == sourceType
    ensures found.Some? ==> found.value == sources[0]
  {
    var i := 0;
    while i < |sources|
      invariant 0 <= i <= |sources|
      invariant 0 < i ==> sources[0].collectionType != sourceType
    {
      if sources[0].collectionType == sourceType {
        return Some(sources[0]);
      }
      i := i + 1;
    }
    return None;
  }

  /**
   * `createSource`: the credential guard, the lifecycle rule for the source's bucket, the
   * lookup and its decision; `lookup` is the parsed answer, or the error that was caught.
   */
  method CreateSource(args: SourceArgs, location: Result<Option<string>, S3Error>,
                      fetched: Result<LifecycleConfiguration, S3Error>,
                      lookup: Result<seq<SourceRecord>, string>)
    returns (s3: Option<SetupS3Client>, requests: seq<Request>, outcome: SourceOutcome)
    modifies if fetched.Success? then {fetched.value} else {}
    ensures MissingCredentials(args) ==> s3 == None && requests == [] && outcome == SourceId("")
    ensures !MissingCredentials(args) ==>
      && s3.Some? && fresh(s3.value)
      && (var (bucketName, prefix) := SplitBucket(args.bucket);
          s3.value.sent == [GetBucketLocation(bucketName), GetBucketLifecycle(bucketName)]
            + LifecycleCommands(bucketName,
                LifecycleOutcome(old(FetchedRules(fetched)), prefix, args.name + "-rule", Add), Add))
      && requests == [SourceLookup(args)]
      && outcome == match lookup
                    case Failure(e) => Rejected(e)
                    case Success(sources) => CreateLookup(sources, args.sourceType)
  {
    if MissingCredentials(args) {
      return None, [], SourceId("");
    }
    var client := UpdateBucketLifeCycle(LifecycleParamsFor(args), Add, location, fetched);
    s3 := Some(client);
    requests := [SourceLookup(args)];
    match lookup
    case Failure(e) =>
      outcome := Rejected(e);
    case Success(sources) =>
      outcome := CreateLookup(sources, args.sourceType);
  }

  /** `deleteSource`: the same guard, the rule removal, the lookup and the loop over it. */
  method DeleteSource(args: SourceArgs, location: Result<Option<string>, S3Error>,
                      fetched: Result<LifecycleConfiguration, S3Error>,
                      lookup: Result<seq<SourceRecord>, string>)
    returns (s3: Option<SetupS3Client>, requests: seq<Request>, outcome: SourceOutcome)
    modifies if fetched.Success? then {fetched.value} else {}
    ensures MissingCredentials(args) ==> s3 == None && requests == [] && outcome == SourceId("")
    ensures !MissingCredentials(args) ==>
      && s3.Some? && fresh(s3.value)
      && (var (bucketName, prefix) := SplitBucket(args.bucket);
          s3.value.sent == [GetBucketLocation(bucketName), GetBucketLifecycle(bucketName)]
            + LifecycleCommands(bucketName,
                LifecycleOutcome(old(FetchedRules(fetched)), prefix, args.name + "-rule", Remove), Remove))
      && requests == [SourceLookup(args)]
      && outcome == match lookup
                    case Failure(e) => Rejected(e)
                    case Success(sources) => DeleteLookup(sources, args.sourceType)
  {
    if MissingCredentials(args) {
      return None, [], SourceId("");
    }
    var client := UpdateBucketLifeCycle(LifecycleParamsFor(args), Remove, location, fetched);
    s3 := Some(client);
    requests := [SourceLookup(args)];
    match lookup
    case Failure(e) =>
      outcome := Rejected(e);
    case Success(sources) =>
      if |sources| == 0 {
        outcome := SourceId("");
      } else {
        var found := FindSourceToDelete(sources, args.sourceType);
        outcome := if found.Some? then DeleteFound(found.value) else SourceId("");
      }
  }

  /**
   * Only the first source of the lookup is ever considered: when it has another type,
   * nothing is deleted even though a later source has the right type.
   */
  lemma DeleteLooksOnlyAtFirst(sources: seq<SourceRecord>, sourceType: string)
    requires |sources| >= 2 && sources[0].collectionType != sourceType
    requires sources[1].collectionType == sourceType
    ensures DeleteLookup(sources, sourceType) == SourceId("")
    ensures CreateLookup(sources, sourceType) == CreateNew
  {
  }

  // ---------------------------------------------------------------- policies

  /** The arguments of `createPolicy` that shape the policy. */
  datatype PolicyArgs = PolicyArgs(customerId: string, accessKeyId: string, secretKey: string,
                                   name: string, sourceType: string, logFormat: string, policy: Json)

  /** The `params` object `createPolicy` hands to the API client. */
  datatype PolicyParams = PolicyParams(customerId: string, accessKeyId: string, secretKey: string,
                                       name: string, policyType: string, templateId: Option<string>,
                                       policy: Json)

  const VpcTemplateId := "BFE6243E-E57C-4ADE-B444-C5999E8FE3A7"

  function VpcPolicy(): Json {
    JObject([("default", JString("false"))])
  }

  function IoTPolicy(): Json {
    JObject([("default", JString("false")),
             ("timestamp", JObject([("format", JString("YYYY-MM-DD hh:mm:ss"))])),
             ("multiline", JObject([("is_multiline", JString("false"))]))])
  }

  /** The switch on the log format: fixed policies for VPC Flow Logs and IoT, the caller's otherwise. */
  function CreatePolicyParams(args: PolicyArgs): (p: PolicyParams)
    ensures p.customerId == args.customerId && p.name == args.name && p.policyType == args.sourceType
    ensures p.accessKeyId == args.accessKeyId && p.secretKey == args.secretKey
    ensures p.templateId.Some? <==> args.logFormat == "AWS VPC Flow Logs"
    ensures args.logFormat != "AWS VPC Flow Logs" && args.logFormat != "AWS IoT" ==> p.policy == args.policy
  {
    var base := PolicyParams(args.customerId, args.accessKeyId, args.secretKey, args.name,
                             args.sourceType, None, args.policy);
    if args.logFormat == "AWS VPC Flow Logs" then base.(templateId := Some(VpcTemplateId), policy := VpcPolicy())
    else if args.logFormat == "AWS IoT" then base.(policy := IoTPolicy())
    else base
  }

  /** The request the API client makes of the parameters; the template id is not part of it. */
  function PolicyRequest(p: PolicyParams): Result<Request, string> {
    CreatePolicy(p.customerId, p.policyType, p.name, p.policy)
  }

  /** For VPC Flow Logs the posted policy is `{default: false}` as a boolean, and the template id is dropped. */
  lemma VpcPolicyRequest(args: PolicyArgs)
    requires args.logFormat == "AWS VPC Flow Logs"
    ensures var p := CreatePolicyParams(args);
      && PolicyRequest(p) == Success(PostRequest(CollectionUrl(args.customerId, Policies),
           PolicyPayload(args.sourceType, args.name, JObject([("default", JBool(false))]))))
      && PolicyRequest(p) == PolicyRequest(p.(templateId := None))
  {
    assert CoerceProperty(VpcPolicy().fields, "default") == [("default", JBool(false))];
  }

  /** For IoT both `default` and `multiline.is_multiline` are posted as the boolean `false`. */
  lemma IoTPolicyRequest(args: PolicyArgs)
    requires args.logFormat == "AWS IoT"
    ensures PolicyRequest(CreatePolicyParams(args)) == Success(PostRequest(CollectionUrl(args.customerId, Policies),
      PolicyPayload(args.sourceType, args.name,
        JObject([("default", JBool(false)),
                 ("timestamp", JObject([("format", JString("YYYY-MM-DD hh:mm:ss"))])),
                 ("multiline", JObject([("is_multiline", JBool(false))]))]))))
  {
    IoTPolicyCoerced(IoTPolicy());
  }

  lemma IoTPolicyCoerced(policy: Json)
    requires policy == IoTPolicy()
    ensures CoercePolicy(policy) == Success(JObject([("default", JBool(false)),
      ("timestamp", JObject([("format", JString("YYYY-MM-DD hh:mm:ss"))])),
      ("multiline", JObject([("is_multiline", JBool(false))]))]))
  {
    var d, ts := ("default", JString("false")), ("timestamp", JObject([("format", JString("YYYY-MM-DD hh:mm:ss"))]));
    var ml := ("multiline", JObject([("is_multiline", JString("false"))]));
    var d1, m1 := ("default", JBool(false)), [("is_multiline", JBool(false))];
    var p0 := [d1, ts, ml];
    assert policy.fields == [d, ts, ml] && policy.fields[1..] == [ts, ml];
    CoerceFirst(policy.fields, d, JBool(false));
    assert CoerceProperty(policy.fields, "default") == p0;
    KeepsSecondAndThird(p0, d1, ts, ml, JObject(m1));
    var inner := ml.1.fields;
    assert inner == [("is_multiline", JString("false"))] && inner[1..] == [];
    CoerceFirst(inner, inner[0], JBool(false));
    assert CoerceProperty(inner, "is_multiline") == m1;
  }

  /** Coercing the first property of an object to `b` when it holds the string form of `b`. */
  lemma CoerceFirst(fs: seq<(string, Json)>, f0: (string, Json), b: Json)
    requires |fs| >= 1 && fs[0] == f0 && f0.1.JString? && b == JBool(f0.1.s == "true")
    ensures CoerceProperty(fs, f0.0) == [(f0.0, b)] + fs[1..]
  {
  }

  lemma KeepsSecondAndThird(fs: seq<(string, Json)>, f0: (string, Json), f1: (string, Json), f2: (string, Json), v: Json)
    requires fs == [f0, f1, f2] && f0.0 != f2.0 && f1.0 != f2.0
    ensures Get(fs, f2.0) == Some(f2.1)
    ensures Set(fs, f2.0, v) == [f0, f1, (f2.0, v)]
  {
    var t1, t2 := [f1, f2], [f2];
    assert fs[1..] == t1 && t1[1..] == t2 && t2[1..] == [];
    assert Set(t2, f2.0, v) == [(f2.0, v)];
    assert Set(t1, f2.0, v) == [f1] + [(f2.0, v)];
    assert Set(fs, f2.0, v) == [f0] + [f1, (f2.0, v)];
  }
}
