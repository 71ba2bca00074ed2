# Multi-tenant Microsoft Graph request node, modelled in Dafny

This project models what the node's `execute` entry point in
`dist/nodes/MsGraph.node.js` does with one batch of input items. It reads the
client credentials once. Then, for each item in order, it:

- looks up the item's tenant in a token cache that lives for one execution;
- on a miss, exchanges the client credentials for an access token at that tenant's Azure AD endpoint, with an OAuth 2.0 client-credentials grant as in section 4.4 of RFC 6749, and caches the token;
- builds the Microsoft Graph request: method, URL, query object, JSON body, bearer and JSON headers;
- sends it; the intended behaviour retries HTTP 429 replies at most five times, while the code as written fails on the first 429 (see "## Findings");
- converts the response body to the item's output.

When an item fails, the host's continue-on-fail setting decides the outcome.
If it is on, the item gets an `{ error: message }` entry and processing goes on.
If it is off, the whole execution fails with that item's error.

Modules, in dependency order:

- `Wrappers`: `Option` and `Result`.
- `JsValue`: the JavaScript values the node handles, and the parts of JavaScript it relies on: truthiness, `||`, string conversion in template literals, `typeof … === 'object'`, and `trim` with the ECMAScript white-space set.
- `FormEncoding`: the `application/x-www-form-urlencoded` serializer and parser of the WHATWG URL Standard (sections 5.2 and 5.1; the parser skips empty parts). The percent-encoding of a single name or value is a parameter.
- `TokenExchange`: the credential fallback, the token endpoint and form, reading `access_token` from the reply, and the cache lookup.
- `RequestSpec`: the query fold, body resolution, headers, request options and output formatting.
- `Throttle`: the 429 retry loop, as a method proved equal to a specification function.
- `Batch`: the per-item pipeline (`RunItem`, and the method `ProcessItem` proved equal to it), the batch (`RunUpTo`, `RunBatch`, and the method `Execute` proved equal to them), and the lemmas about caching, error handling and the call log.

The network is an oracle:

- `Env.tokenReply(i)` is what the token request of item `i` produces.
- `Env.api(i)(k)` is the reply to attempt `k` of item `i`'s Graph request.
- `JSON.parse`, `JSON.stringify` and form percent-encoding are function-typed fields of `Env`.

`RunItem`, `ProcessItem` and `Execute` model the corrected node. They use the retry loop `Throttled` rather than `SendAsWritten`, and the lookup `CacheRead` rather than `CacheReadAsWritten`. The as-written behaviour is under "## Findings".

`Execute` returns the outcome and a log of every call the node makes, either a `TokenCall` or an `ApiCall`. That log lets the model state how many token exchanges and retries happen.

Error handling and the query object, as the code does them:

- Query pairs are folded into an object, so when a name repeats, the last pair wins (`RequestSpec.QueryFold`).
- No dedicated error types are raised. A missing token raises a plain error carrying the missing-token message. When the retry budget runs out, the last HTTP error itself is rethrown.
- A failed token request's own error message is what the item fails with.
- A failed exchange caches nothing, so the next item for the same tenant tries the exchange again. Only granted exchanges, not all token calls, are bounded by the number of tenants (`Batch.ExchangesBoundedByTenants`).

## Model

| member | source | states |
|---|---|---|
| JsValue.Or | dist/nodes/MsGraph.node.js:38-39 | the result is one of the operands, and it is truthy iff either operand is |
| JsValue.TrimStart | dist/nodes/MsGraph.node.js:80 | the result is a suffix of the input; everything removed is white space; the result does not start with white space |
| JsValue.TrimEnd | dist/nodes/MsGraph.node.js:80 | the result is a prefix of the input; everything removed is white space; the result does not end with white space |
| JsValue.TrimEmptyIffBlank | dist/nodes/MsGraph.node.js:80 | trimming gives the empty string exactly when every character is ECMAScript white space or a line terminator |
| FormEncoding.SplitJoin | dist/nodes/MsGraph.node.js:50-54 | splitting the joined fields at the separator gives back the fields, when no field contains the separator |
| FormEncoding.SplitPairAt | dist/nodes/MsGraph.node.js:50-54 | a `name=value` field with no `=` in the name splits back into its name and value |
| FormEncoding.ParseSkipsEmptyParts | dist/nodes/MsGraph.node.js:59 | as section 5.1 of the URL Standard requires, the bodies "&" and "" parse to no pairs |
| FormEncoding.SerializeParseRoundTrip | dist/nodes/MsGraph.node.js:50-59 | parsing the serialized form gives back the appended pairs, in order, for any encoding that hides `&` and `=` and that decoding inverts |
| TokenExchange.ClientOf | dist/nodes/MsGraph.node.js:37-39 | client id and secret are the camelCase credential fields when those are truthy, otherwise the snake_case ones |
| TokenExchange.TokenUrlRoundTrip | dist/nodes/MsGraph.node.js:49 | the token endpoint URL determines the tenant it was built for |
| TokenExchange.TokenRequestContents | dist/nodes/MsGraph.node.js:49-62 | the token request is a POST to the tenant's endpoint with the form Content-Type; its body parses back to grant_type=client_credentials, client_id, client_secret and resource=https://graph.microsoft.com, in that order |
| TokenExchange.AccessTokenField | dist/nodes/MsGraph.node.js:64 | reading access_token fails exactly on an undefined or null reply; on an object it is the property or undefined; on any other value it is undefined |
| TokenExchange.GrantedToken | dist/nodes/MsGraph.node.js:56-67 | a token is granted iff the reply is an object with a truthy access_token, and it is that value; a failed request keeps its own message; a falsy token gives "Failed to retrieve access token for tenant \<id\>" |
| TokenExchange.CacheHitIffPresent | dist/nodes/MsGraph.node.js:46-47 | on a cache of truthy tokens, the lookup is a hit exactly when the tenant has an entry, and it returns that entry |
| TokenExchange.InheritedPropertyHitsEmptyCache | dist/nodes/MsGraph.node.js:34-47 | with the object-literal cache as written, tenant "constructor" hits on an empty cache and the bearer text becomes the Object constructor's source text; the intended lookup misses |
| TokenExchange.CacheReadsAgreeOnPlainIds | dist/nodes/MsGraph.node.js:34-47 | the as-written and intended lookups agree on every tenant id that is not an inherited property name |
| RequestSpec.QueryFold | dist/nodes/MsGraph.node.js:74-75 | the query object's keys are exactly the names of the pairs |
| RequestSpec.QueryFoldLastWins | dist/nodes/MsGraph.node.js:75 | each name maps to the value of the last pair carrying it |
| RequestSpec.ResolveBody | dist/nodes/MsGraph.node.js:77-85 | the body is undefined for methods other than POST, PATCH and PUT; the item fails with "Body must be valid JSON" iff the body is non-blank text that does not parse; non-blank text is replaced by its parse; anything else is sent as given |
| RequestSpec.BlankTextIsNotParsed | dist/nodes/MsGraph.node.js:80 | a body made only of white space is sent as it is, without parsing |
| RequestSpec.BuildHeaders | dist/nodes/MsGraph.node.js:87-88 | Authorization is "Bearer " plus the token's string form; Accept is application/json; a JSON Content-Type is present iff the body is truthy; there are no other headers |
| RequestSpec.FormatOutput | dist/nodes/MsGraph.node.js:112-113 | with format "string" the output is the JSON text of a null, array or object response and the string form of anything else; any other format passes the response through |
| Throttle.ThrottledCharacterized | dist/nodes/MsGraph.node.js:94-110 | the loop makes 1 to 6 attempts; every attempt but the last got a 429; the last reply is the result; it stops early only on a reply that is not a 429 |
| Throttle.SendWithRetry | dist/nodes/MsGraph.node.js:94-110 | the loop equals the specification function, and its result satisfies the characterization above |
| Throttle.FiveThrottlesThenSuccess | dist/nodes/MsGraph.node.js:103-104 | five 429s followed by a success return the sixth attempt's body |
| Throttle.SixThrottlesExhaustBudget | dist/nodes/MsGraph.node.js:103-108 | six 429s surface the sixth one, and no seventh attempt is made |
| Throttle.OtherErrorsPropagate | dist/nodes/MsGraph.node.js:103-108 | an error other than 429 is rethrown after one attempt |
| Throttle.AsWrittenNeverRetries | dist/nodes/MsGraph.node.js:103-106 | as written, a 429 followed by a success fails with "retryAfter is not defined" after one attempt; the intended loop returns the second reply |
| Batch.DispatchCalls | dist/nodes/MsGraph.node.js:77-110 | an item holding a token makes at most six downstream calls, numbered by attempt, each with that token as bearer; a bad body means no call |
| Batch.RunItemShape | dist/nodes/MsGraph.node.js:42-115 | one item makes at most one token call, first and only on a cache miss; only a granted exchange adds a cache entry, for the item's tenant; every call belongs to the item |
| Batch.RunKeepsInvariant | dist/nodes/MsGraph.node.js:41-123 | after any number of items, the cache holds exactly the tenants with a granted exchange, each granted once, and every call belongs to an item already processed |
| Batch.AbortedRunIsFinal | dist/nodes/MsGraph.node.js:119-121 | once an item has aborted the run, later items change nothing |
| Batch.ContinueOnFailOneEntryPerItem | dist/nodes/MsGraph.node.js:115-118 | with continue-on-fail, the run never aborts, and entry j is item j's output or its error entry |
| Batch.FailFastResultCount | dist/nodes/MsGraph.node.js:115-121 | without continue-on-fail, there is at most one entry per item, and exactly one per item when nothing aborted |
| Batch.FailFastReturnsOnlySuccesses | dist/nodes/MsGraph.node.js:115-121 | without continue-on-fail, every returned entry is the output of an item that succeeded |
| Batch.FailFastStopsAtFirstError | dist/nodes/MsGraph.node.js:116-121 | without continue-on-fail, an aborted run stopped at the item right after the returned ones, with that item's error |
| Batch.FailFastMakesNoLaterCalls | dist/nodes/MsGraph.node.js:116-121 | without continue-on-fail, no call is made for any item after the one that aborted |
| Batch.ExchangesBoundedByTenants | dist/nodes/MsGraph.node.js:34-68 | no tenant is granted a token twice in one execution, so granted exchanges are at most the number of distinct tenants |
| Batch.CachedTenantReusesToken | dist/nodes/MsGraph.node.js:46-47 | a cached tenant causes no token call and no cache change, and every attempt carries the cached token |
| Batch.MissingAccessTokenFailsItem | dist/nodes/MsGraph.node.js:64-66 | a reply (object, array, text, number or boolean) whose access_token read gives a falsy value fails the item with the missing-token message, caches nothing and makes no downstream call |
| Batch.TextTokenReplyFailsItem | dist/nodes/MsGraph.node.js:64-66 | a text reply such as an HTML page fails the item with the missing-token message, caches nothing, and makes only the token call |
| Batch.GrantedTokenIsCached | dist/nodes/MsGraph.node.js:67-68 | a granted token is cached for the tenant; the token call comes first; every later attempt carries the token |
| Batch.InvalidBodyFailsItem | dist/nodes/MsGraph.node.js:80-83 | non-blank text that does not parse fails the item with "Body must be valid JSON" before any downstream call |
| Batch.FirstAttemptSucceeds | dist/nodes/MsGraph.node.js:97-101 | when the first attempt gets a response, the item makes exactly one downstream call and returns that response unchanged |
| Batch.GrantedThenFirstAttemptSucceeds | dist/nodes/MsGraph.node.js:46-101 | on a miss with a granted token and a first attempt that succeeds, the item caches the token and makes exactly the token call and one downstream call |
| Batch.UnparsableTextIsRecorded | dist/nodes/MsGraph.node.js:80-83 | for a cached tenant, a text body that starts with a non-space character and does not parse becomes the "Body must be valid JSON" error entry, with no call |
| Batch.SameTenantTwoItemsOneExchange | dist/nodes/MsGraph.node.js:41-115 | a GET and a POST for the same tenant make one token exchange and two downstream calls, return two outputs in order, and send a JSON Content-Type only on the POST |
| Batch.FirstItemGrants | dist/nodes/MsGraph.node.js:46-115 | with an empty cache, the first item exchanges, caches the token and makes one downstream call |
| Batch.SecondItemReusesToken | dist/nodes/MsGraph.node.js:46-115 | with the tenant cached, the next item makes one downstream call and no exchange |
| Batch.MalformedBodyIsRecorded | dist/nodes/MsGraph.node.js:80-118 | a POST body "{bad json" gives the error entry "Body must be valid JSON" and no downstream call |
| Batch.ProcessItem | dist/nodes/MsGraph.node.js:42-115 | the imperative item body returns the result, the new cache and the calls of the specification `RunItem` |
| Batch.Execute | dist/nodes/MsGraph.node.js:31-126 | the loop's outcome and call log equal `RunBatch`; with continue-on-fail it completes with one entry per item; grants are distinct per tenant and at most the number of tenants |

## Left out

- The node's description block (display name, parameter definitions) is user-interface metadata, not behaviour.
- HTTP I/O is left out: both kinds of request are replies supplied by `Env`, indexed by item and attempt. Timeouts, redirects and response headers are not modelled.
- The host functions that read input items, node parameters and credentials, the continue-on-fail flag, and output preparation are left out. Their results are the inputs of `Execute`. Parameter defaults are assumed already applied. Output preparation is taken to return the items as they are.
- The wait between retries is left out. The model has no clock, so the loop only counts attempts.
- `JSON.parse`, `JSON.stringify` and percent-encoding are parameters, not models. The form round trip assumes the encoding never emits `&` or `=` and that decoding inverts it. Lone surrogates are not modelled.
- Numbers are integers. NaN, infinities, negative zero and fractions are not modelled. Nor are magnitudes of 10^21 and above, which JavaScript prints in exponent form, or integers above 2^53, which a JavaScript number cannot hold exactly. This affects only the truthiness and string form of numeric values.
- Concurrency and `await` ordering are left out. The loop is sequential, as the source awaits each step.
- `RequestSpec.QueryFold`: the query object is a map, so the insertion order of its keys is not modelled. A query name `__proto__` is treated as an ordinary key.
- `resolveWithFullResponse` is always true, so the body is taken from the full response and the flag is not a field of the request.
- The error raised for an invalid body is identified by its message only; its error class is not modelled.

## Findings

| source | as written | input that shows it | evidently intended | confidence | as-written member | corrected member |
|---|---|---|---|---|---|---|
| dist/nodes/MsGraph.node.js:105 | the wait before a retry reads `retryAfter`, which no scope declares, so the first retryable 429 raises a ReferenceError that ends the loop | a first reply with status 429 and a second reply that succeeds: the item fails with "retryAfter is not defined" | wait and retry up to five times, then surface the last 429 | high, not executed | Throttle.AsWrittenNeverRetries | Throttle.SendWithRetry |
| dist/nodes/MsGraph.node.js:34 | the token cache is an object literal, so the lookup also reads properties inherited from Object.prototype | tenant id "constructor" on an empty cache: no token is requested, and the bearer text is the Object constructor's source text | a cache without inherited properties, so any tenant not yet cached is exchanged | medium, not executed | TokenExchange.InheritedPropertyHitsEmptyCache | TokenExchange.CacheHitIffPresent |
