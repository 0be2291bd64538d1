# CloudWatch-logs-to-S3 collector: a Dafny model

The repository is an AWS Lambda function with three operations, selected by the handler's
`operation` argument:

- `processLogs` receives a batch of CloudWatch Logs records from a Kinesis subscription.
  It renders every log event of every `DATA_MESSAGE` record according to the configured
  log format, joins the texts in record order and stores the gzip of a non-empty result in
  S3. The object key carries a time stamp and a random suffix.
- `createSource` and `deleteSource` set up and tear down the collection on the
  log-management side. Each one adds or removes an S3 lifecycle rule that expires the
  stored files after a day, looks the source up through the log-management ("yard") API,
  and decides whether to reuse, create or delete it. The API client shapes the query
  strings, endpoint paths and JSON payloads of those calls and checks the status of every
  answer.

The model keeps the deterministic core of those three files and proves what it promises.

| module | file | models |
|---|---|---|
| `Wrappers` | wrappers.dfy | `Option` and `Result` |
| `JsText` | js_text.dfy | the JavaScript string operations the code relies on: `String(n)`, `slice` with negative indices, `indexOf`, `split` on one character, `join` |
| `IsoTime` | iso_time.dfy | `Date.prototype.toISOString` as the integer civil-date conversion of ECMA-262 (proleptic Gregorian, UTC), together with its parse-back |
| `Json` | json.dfy | JSON objects as association lists in insertion order, property assignment, and `toBoolean` |
| `S3Endpoint` | s3_endpoint.dfy | `getS3Endpoint`, which index.js and setup.js each define identically |
| `LogExport` | log_export.dfy | index.js: the handler's switch, `handleProcessLogs`, `processLogs`, `getMessages`, `uploadData`, `getObjectName` |
| `Setup` | setup.dfy | setup.js: `updateBucketLifeCycle` with `getS3Lifecycle` and `setupLifecycle`, the credential guard and lookups of `createSource` and `deleteSource`, the parameters of `createPolicy` |
| `YardApiClient` | yard_api_client.dfy | utilities/ci_yard_api_client.js: `getQueryString`, the URL builders, `createCredentials`, `createPolicy`, `createSource`, the status check and `errorFromResult` |

The imperative parts are methods proved against specification functions:

| method | source | specification function |
|---|---|---|
| `LogExport.RenderEvents` | the `forEach` loops that append to `logs` | `RenderAll` |
| `LogExport.JoinResults` | the `for` loop that builds `data` | `Concat` |
| `Setup.GetS3Lifecycle` | the loop over `data.Rules` and its in-place `splice`/`push` | `LifecycleOutcome` and `EditedRules` |

The last one works on a `LifecycleConfiguration` object. The S3 clients are classes that
record the commands they are sent and the endpoint they are configured with.

## Model

| member | source | states |
|---|---|---|
| JsText.IndexOf | setup.js:365 | the result is the first position of the character, with no earlier occurrence; it is -1 exactly when the character is absent |
| JsText.RelativeIndex | setup.js:366-367 | an index in range is itself, a negative one counts back from the end, and one beyond either end is clamped to `0` or `len` |
| JsText.Slice | setup.js:366-367 | a slice is never longer than its string |
| JsText.NatToString | index.js:143 | `String(n)`: at least one digit, all digits, a single character exactly when `n < 10` |
| JsText.NatToStringValue | index.js:143 | the decimal text of `n` reads back as `n` |
| JsText.NatToStringPads | index.js:143 | a number of exactly `w` digits is written the same with or without zero-padding to `w` |
| JsText.PadDigitsValue | index.js:90 | a number below `10^w`, zero-padded to `w` digits, reads back as itself |
| JsText.TwoDigitFieldPads | index.js:144-148 | for `n < 100`, `("0" + n).slice(-2)` is `n` zero-padded to two digits and reads back as `n` |
| JsText.Split | index.js:83 | `split` yields at least one piece and no piece contains the separator |
| JsText.JoinSplit | index.js:83 | joining the pieces of a split with the same separator gives the string back |
| JsText.SplitJoin | utilities/ci_yard_api_client.js:239-242 | splitting a join of separator-free pieces gives the pieces back, in order |
| IsoTime.DateOfDayCorrect | index.js:89-90 | the date of a day number is a real calendar date exactly that many days after 1970-01-01, in both directions from the epoch |
| IsoTime.FromTimeValueCorrect | index.js:89-90 | every time value maps to a valid calendar instant whose time value (MakeDate) is the input |
| IsoTime.ToIsoString | index.js:89-90 | `toISOString` throws (`None`) exactly for time values beyond ±8.64e15 ms |
| IsoTime.FormatFields | index.js:90 | `YYYY-MM-DDThh:mm:ss.sssZ` is 24 characters with every separator and zero-padded field in its fixed place |
| IsoTime.ReadFormatIso | index.js:90 | reading the digit fields of the formatted string gives back the instant (round trip) |
| IsoTime.IsoStringShape | index.js:100-101 | for years 0..9999 the ISO string is well shaped and reads back as a valid instant whose time value is the event's timestamp |
| IsoTime.IsoStringOfEpoch | index.js:89-90 | time value 0 is written `1970-01-01T00:00:00.000Z` |
| S3Endpoint.GetS3Endpoint | index.js:154-160 | the host is `s3.amazonaws.com` exactly when the region is missing, empty or `us-east-1` |
| S3Endpoint.EndpointNamesRegion | index.js:159 | a non-default endpoint `s3-<region>.amazonaws.com` names its region, which can be read back |
| S3Endpoint.EndpointInjective | setup.js:462-468 | two non-default regions share an endpoint only when they are equal |
| LogExport.FormatOf | index.js:80-104 | the three format names select their cases, and every other string selects the default (custom) case |
| LogExport.RenderEvent | index.js:80-104 | an event's block throws exactly for Lambda or custom format with an invalid date |
| LogExport.VpcFlowLogLine | index.js:81-86 | a VPC Flow Logs line carries the 11th space-separated field of the message, or `undefined` when there are fewer fields, then the message and one newline |
| LogExport.TimestampedLine | index.js:87-103 | Lambda and custom lines carry the ISO time in brackets, ` - `, the message and two newlines, under their own prefixes |
| LogExport.IoTLine | index.js:93-97 | every IoT line is the prefix, the message and one newline, with no time stamp |
| LogExport.CustomExample | index.js:98-103 | an unlisted format renders the event at time 0 as a custom record stamped `1970-01-01T00:00:00.000Z` |
| LogExport.Blocks | index.js:82 | `forEach` visits the events in order: block `i` is event `i`'s rendering |
| LogExport.RenderEvents | index.js:78-105 | the loop's `logs` is the accumulation of all blocks, or the throw of the first failing one |
| LogExport.AccumulateFails | index.js:106-110 | the accumulated text is missing exactly when some block throws |
| LogExport.RenderAllAppend | index.js:82 | rendering a concatenation of events is rendering each part and joining in order |
| LogExport.RenderAllSingle | index.js:82 | one event renders to exactly its own block |
| LogExport.RenderAllFails | index.js:106-110 | a record's events fail to render exactly when one of them throws |
| LogExport.RecordIsolation | index.js:106-110 | one throwing event makes its whole record contribute `""`, discarding the lines already built |
| LogExport.NonTimestampFormatsRender | index.js:81-97 | VPC Flow Logs and IoT records never throw |
| LogExport.Contribution | index.js:72-75 | an undecodable record or one whose `messageType` is absent or not `DATA_MESSAGE` contributes `""` |
| LogExport.GetMessages | index.js:66-111 | `getMessages` returns exactly the record's contribution |
| LogExport.Contributions | index.js:50 | `records.map(getMessages)`: result `i` is record `i`'s contribution |
| LogExport.JoinResults | index.js:54-57 | the `for` loop builds the concatenation of the results in index order |
| LogExport.ConcatAppend | index.js:54-57 | the concatenation of a split list is the concatenation of its first part followed by that of the rest |
| LogExport.ConcatEmpty | index.js:54-57 | the joined text is empty exactly when every part is empty |
| LogExport.BuildPayload | index.js:50-57 | the payload is the batch payload: every record's contribution in record order |
| LogExport.BatchPayloadOrder | index.js:50-57 | the payload of a split batch is the payload of its first part followed by the payload of the rest |
| LogExport.BatchPayloadEmpty | index.js:115 | the payload is empty (so nothing is stored) exactly when no record contributes anything |
| LogExport.RandomSuffix | index.js:149 | the suffix is the 16 characters after `0.` of the padded base-36 text |
| LogExport.FourDigitYear | index.js:143 | `getFullYear()` of a four-digit year is those four digits |
| LogExport.TimeStringFields | index.js:143-148 | with a valid clock, every field of the time string has a fixed width, and month, day, hour, minute and second are each the reading plus one, zero-padded |
| LogExport.ObjectNameFields | index.js:140-152 | the key is the prefix, then 44 characters: year, `+1` fields at fixed offsets with `-` between them, the 16-character suffix and `.json.gz` |
| LogExport.ObjectNameOffByOne | index.js:145-148 | the local reading 2024-12-31 23:59:59 is written `2024-12-32-24-60-60` |
| LogExport.PutRequestFor | index.js:121-129 | the stored body decompresses to the payload; bucket, key, content type `application/json` and encoding `gzip` are as given |
| LogExport.S3Client.constructor | index.js:34 | a new client has the invocation's region, no endpoint override and has sent nothing |
| LogExport.S3Client.SetEndpoint | index.js:38 | the endpoint is overridden and nothing is sent |
| LogExport.S3Client.Send | index.js:131 | one more request is recorded; the call fails with what S3 answered |
| LogExport.UploadData | index.js:113-138 | an empty payload sends nothing and succeeds; otherwise exactly one `PutObject` is sent and its error is rethrown |
| LogExport.ProcessLogs | index.js:46-64 | the batch payload is stored under the generated key unless empty; the invocation fails exactly when a non-empty store fails |
| LogExport.EndpointRegion | index.js:37 | a missing or empty location constraint falls back to the configured region |
| LogExport.HandleProcessLogs | index.js:32-44 | a failed location lookup fails the invocation and stores nothing; otherwise the client points at the region's endpoint and the batch is processed |
| LogExport.Dispatch | index.js:20-29 | a name is dispatched to the operation it names; any other name fails with `Unsupported operation: '<name>'.` |
| LogExport.DispatchByName | index.js:20-29 | each of the three operations is dispatched by its own name |
| Json.Keys | utilities/ci_yard_api_client.js:58 | the keys of an object are listed in property order |
| Json.Get | utilities/ci_yard_api_client.js:55 | a lookup is absent exactly when the key is not a property, and a found value is stored under that key |
| Json.GetSetSame | utilities/ci_yard_api_client.js:52-54 | after assigning a property, reading it gives the assigned value |
| Json.GetSetOther | utilities/ci_yard_api_client.js:52-54 | assigning one property leaves every other property's value unchanged |
| Json.SetKeys | utilities/ci_yard_api_client.js:52-54 | assigning an existing key keeps the key order, and a new key goes last |
| Json.SetUnique | utilities/ci_yard_api_client.js:52-54 | assignment never duplicates a key |
| Json.ToBoolean | utilities/ci_yard_api_client.js:245-248 | a string becomes `value === "true"`; any other value is returned as it is |
| Json.ToBooleanIdempotent | utilities/ci_yard_api_client.js:245-248 | `toBoolean` is idempotent and never yields a string |
| Json.CoerceProperty | utilities/ci_yard_api_client.js:51 | coercing a property keeps the object's keys and their order |
| Json.CoercePropertyGet | utilities/ci_yard_api_client.js:67 | coercing a property applies `toBoolean` to that property only; an absent property stays absent |
| YardApiClient.Pairs | utilities/ci_yard_api_client.js:240-242 | one `name=value` pair per argument, in order |
| YardApiClient.GetQueryString | utilities/ci_yard_api_client.js:235-243 | the query string is empty exactly for no arguments and otherwise starts with `?` |
| YardApiClient.QueryStringRoundTrip | utilities/ci_yard_api_client.js:235-243 | without `&` in names and values, the query reads back pair by pair in argument order, and each name ends at the first `=` |
| YardApiClient.TwoArgQuery | utilities/ci_yard_api_client.js:239-242 | the query string of two arguments is `?a=x&b=y`, unescaped |
| YardApiClient.CollectionUrlJoin | utilities/ci_yard_api_client.js:8 | the collection endpoint is `/sources/v1/<customer>/<collection>` |
| YardApiClient.UrlSegments | utilities/ci_yard_api_client.js:74-86 | for `/`-free ids, the endpoint paths split into exactly the base, customer, collection and item segments |
| YardApiClient.GetRequest | utilities/ci_yard_api_client.js:96-100 | a GET has no body, and its path is the URL followed by the query string |
| YardApiClient.PostRequest | utilities/ci_yard_api_client.js:145-149 | a POST goes to the URL with the payload as its body |
| YardApiClient.DeleteRequest | utilities/ci_yard_api_client.js:195-199 | a DELETE goes to the URL without a body |
| YardApiClient.Settle | utilities/ci_yard_api_client.js:114-121 | a response resolves with its text exactly when its status is the method's success status (200, 201, 204), else it rejects with `{errorCode, message}` |
| YardApiClient.StatusesDistinct | utilities/ci_yard_api_client.js:164-169 | the success status of one method is an error status for the others |
| YardApiClient.CreateCredentials | utilities/ci_yard_api_client.js:24-45 | only `iam_role` credentials are posted, as `{credential: {type, name, iam_role: {arn, external_id}}}`; any other type returns the unsupported-type message |
| YardApiClient.PolicyPayloadFields | utilities/ci_yard_api_client.js:52-58 | the payload holds the name and the type, and the policy under the type's key unless that key is `name` or `type`, which the later assignments overwrite |
| YardApiClient.CoercePolicy | utilities/ci_yard_api_client.js:51-57 | coercion throws exactly when the policy is a primitive or `null`, or an object whose `multiline` is one |
| YardApiClient.CoercePolicyFields | utilities/ci_yard_api_client.js:51-57 | `default` becomes `toBoolean` of its old value, `multiline` gets its `is_multiline` coerced (an array is kept), and every other property keeps its value |
| YardApiClient.CreatePolicy | utilities/ci_yard_api_client.js:47-60 | the policy is posted to the policies endpoint exactly when its coercion does not throw, with the body `{policy: {[type]: coerced policy, name, type}}` |
| YardApiClient.CoercePolicyIdempotent | utilities/ci_yard_api_client.js:51-57 | coercing again changes nothing; an object keeps its keys and has no string `default` left, and an array is posted as it was |
| YardApiClient.CreateSource | utilities/ci_yard_api_client.js:62-70 | an object source is posted as `{source}` with `enabled` coerced by `toBoolean` and every other property and the key order unchanged; an array is posted as it was; a primitive or `null` source throws |
| Setup.SplitBucketAtSlash | setup.js:365-367 | with a `/`, the setting is the `/`-free bucket name, the first `/` and the prefix |
| Setup.SplitBucketWithoutSlash | setup.js:365-367 | without a `/`, the bucket name loses its last character and the prefix is the whole setting |
| Setup.OpOf | setup.js:404 | only `add` adds; every other operation string takes the removing branches |
| Setup.FirstPrefixMatch | setup.js:401-403 | the result is the first rule with the prefix, or -1 when no rule has it |
| Setup.AddResult | setup.js:401-418 | adding returns the rules unchanged when some rule has the prefix, whatever its ID, and otherwise appends the new rule |
| Setup.AddNoDuplicate | setup.js:401-418 | after adding, exactly one rule has the prefix if none had it; otherwise the count is unchanged |
| Setup.AddIdempotent | setup.js:401-405 | adding twice is adding once |
| Setup.RemoveResult | setup.js:407-411 | removal acts only on the first rule with the prefix: with a matching ID that rule is spliced out, the rest keep their order and an emptied list is `null`; with another ID nothing changes |
| Setup.RemoveAbsent | setup.js:419-420 | removing a prefix no rule has yields `null` |
| Setup.AddThenRemove | setup.js:401-420 | adding a new rule and then removing it gives the rules back, or `null` when there were none |
| Setup.LifecycleConfiguration.constructor | setup.js:400 | the configuration holds the rules S3 returned |
| Setup.LifecycleConfiguration.Splice | setup.js:408 | `splice(i, 1)` removes exactly element `i` |
| Setup.LifecycleConfiguration.Push | setup.js:417 | `push` appends the rule |
| Setup.GetS3Lifecycle | setup.js:390-430 | the loop returns the specified outcome and leaves the configuration's rules edited as specified |
| Setup.SetupLifecycle | setup.js:432-458 | `null` with add sends nothing, `null` with remove deletes the configuration, and anything else is put as the rules |
| Setup.FreshBucketRoundTrip | setup.js:423-424 | a bucket without a configuration gets one holding just the new rule, and removing it later deletes the configuration |
| Setup.FetchErrorIsPut | setup.js:426-428 | any other error of the lifecycle GET is put back as if it were the rule list |
| Setup.SetupS3Client.constructor | setup.js:369 | a new client has no endpoint override and has sent nothing |
| Setup.SetupS3Client.Send | setup.js:380 | one more command is recorded |
| Setup.SetupS3Client.SetEndpoint | setup.js:381 | the endpoint is overridden and nothing is sent |
| Setup.SetupS3Client.Locate | setup.js:378-388 | the location command is sent, and the endpoint is set only when the lookup answered |
| Setup.UpdateBucketLifeCycle | setup.js:362-376 | the bucket is located and its lifecycle fetched; the put or delete follows the outcome for the split bucket name and prefix |
| Setup.UpdateLifecycle | setup.js:369-376 | for a split setting: location, lifecycle GET, then the command chosen by `setupLifecycle`, in that order |
| Setup.LifecycleParamsFor | setup.js:28-31 | the lifecycle rule is named `<source name>-rule` and uses the source's bucket setting |
| Setup.SourceLookup | setup.js:11-21 | the lookup is a GET on the sources endpoint with `?source.config.collection_type=<type>&name=<name>` |
| Setup.CreateLookup | setup.js:37-47 | an existing first source of the same type is reused by id; otherwise a new source is created |
| Setup.DeleteLookup | setup.js:81-95 | the first source is deleted when it has the type; otherwise the result is `{id: ""}` |
| Setup.FindSourceToDelete | setup.js:85-93 | the loop finds a source exactly when the first source has the type, and then returns that source |
| Setup.CreateSource | setup.js:9-52 | with an empty credential nothing is called and `{id: ""}` is returned; otherwise the `add` update runs, then the lookup and its decision |
| Setup.DeleteSource | setup.js:53-100 | the same guard; otherwise the `remove` update runs, then the lookup and its decision |
| Setup.DeleteLooksOnlyAtFirst | setup.js:85-87 | when the first source has another type, a later source of the right type is neither deleted nor reused |
| Setup.CreatePolicyParams | setup.js:231-272 | the template id is set only for VPC Flow Logs, any format other than VPC and IoT passes the caller's policy through, and the identity fields are copied |
| Setup.VpcPolicyRequest | setup.js:232-243 | for VPC Flow Logs the posted policy is `{default: false}`, and the template id is not part of the request |
| Setup.IoTPolicyRequest | setup.js:245-262 | for IoT the posted policy has boolean `false` for `default` and for `multiline.is_multiline`, and keeps the timestamp format |

## Left out

- Network I/O is replaced by parameters carrying what the service answered. This covers every S3 call (`GetBucketLocation`, `PutObject`, the lifecycle GET, PUT and DELETE), the HTTPS requests of the API client, `getToken` and `getYardUrlEndPoint`.
- Decoding a record (base64, gunzip, `JSON.parse`) is not modelled: a record arrives already decoded, `None` standing for any failure while decoding it.
- gzip is symbolic (`Gzip(text)`), so the compression round trip holds by construction rather than by the format standard.
- `new Date()` and `Math.random()` are parameters: the local-clock readings and the base-36 text of the random number.
- `Promise.all` over the records is a sequential map. Only its order-stable result is modelled, not any interleaving.
- All logging is left out, including `console.log`, `JSON.stringify` of errors and `getObjectUrl`, which exists only to be logged.
- The `createSourceImpl` and `deleteSourceImpl` chains are not modelled: `getCredentials`, `createCredentials`, `getPolicy`, `createPolicy`, `doCreateSource`, `doDeleteSource`, `deletePolicy` and `deleteCredential`. They are REST orchestration that returns the errors it catches. The model stops at the outcome `CreateNew` or `DeleteFound(source)` that hands over to them. Of that chain, only the parameter selection of `createPolicy` and the payloads of the API client are modelled.
- `JSON.parse` of the API answers is abstracted: a lookup answer arrives as a list of `SourceRecord` or as the caught error.
- `build/build.js` is not part of this model.
- Setup.UpdateBucketLifeCycle: the answers to the lifecycle PUT and DELETE are only logged, so they are not modelled. A lookup answer without `Rules` (a `TypeError` inside the handler) is not modelled either.
- Setup.UpdateBucketLifeCycle: the client is created with `region: lifeCycleParams.region`, which is always `undefined`, so the region is not modelled.
- The `createPolicy` of the API client and its `createSource` edit the caller's object in place, before copying it. The model works on values, so the aliasing (the caller's `policy` or `source` changed afterwards) is not captured.
- Json: keys that look like array indices, which JavaScript enumerates first, are not distinguished; every object keeps plain insertion order.
- YardApiClient.CoercePolicy and YardApiClient.CreateSource: the property an array takes (`default`, `is_multiline`, `enabled`) is absent from the posted JSON, so the model keeps the array unchanged and does not represent that hidden property.
- LogExport.RenderEvent: messages are strings. A non-string message, on which `split` would throw, is not modelled. `logEvents` that is absent or not an array is `None` in the envelope and contributes `""`, as the thrown `TypeError` does.
- LogExport.ObjectNameFields is stated for four-digit years only; other years only change the width of the year field.
- IsoTime.IsoStringShape is stated for years 0..9999. Outside them the year is written with a sign and six digits (`YearText`), but no parse-back is proved for that form.
- LogExport.ObjectNameOffByOne is stated on the time-string part of the key; the rest of the key is covered by ObjectNameFields.
