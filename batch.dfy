/**
 * The per-execution loop: items are processed one after another in input
 * order; each resolves a token for its tenant (from the cache, or by one token
 * request whose granted token is then cached), builds its request, sends it
 * with the throttle-retry loop and appends its output. A failing item appends
 * an error entry when failures are tolerated and otherwise aborts the run.
 *
 * The host's parameters for each item, the identity provider, the downstream
 * API and the JSON library are inputs (`ItemParams`, `Env`); the network calls
 * made are returned as a log.
 */
module Batch {
  import opened Wrappers
  import opened JsValue
  import opened TokenExchange
  import opened RequestSpec
  import opened Throttle

  /** The node parameters of one item, with the host's defaults already applied. */
  datatype ItemParams = ItemParams(
    tenantId: string,
    verb: string,
    url: string,
    query: seq<(string, string)>,
    body: Value,
    responseFormat: string)

  /** The collaborators of one execution. */
  datatype Env = Env(
    /** the identity provider's answer to the token request made while processing item i */
    tokenReply: nat -> TokenReply,
    /** the downstream answer to attempt k of item i */
    api: nat -> nat -> Reply,
    /** JSON.parse; None when it throws */
    parse: string -> Option<Value>,
    /** JSON.stringify */
    stringify: Value -> string,
    /** the form-urlencoded byte serializer used by URLSearchParams */
    encode: string -> string)

  /** One network call made during the execution. */
  datatype Call =
    | TokenCall(item: nat, tenant: string, tokenRequest: TokenRequest, granted: bool)
    | ApiCall(item: nat, attempt: nat, request: Request)

  predicate IsGrant(c: Call) {
    c.TokenCall? && c.granted
  }

  /** One entry of the returned items: `{ json: ... }`. */
  datatype ItemOut = ItemOut(json: Value)

  /** `{ json: { error: message } }`. */
  function ErrorItem(message: string): ItemOut {
    ItemOut(Obj(map["error" := Str(message)]))
  }

  function OutputOf(result: Result<Value>): ItemOut {
    match result
    case Ok(v) => ItemOut(v)
    case Err(m) => ErrorItem(m)
  }

  /** The execution's result: the returned items, or the error that aborted it. */
  datatype Outcome = Completed(items: seq<ItemOut>) | Aborted(message: string)

  /** The downstream calls of one item: attempts 0 to attempts - 1, all with the same request. */
  function ApiCalls(i: nat, attempts: nat, request: Request): (cs: seq<Call>)
    ensures |cs| == attempts
    ensures forall k :: 0 <= k < attempts ==> cs[k] == ApiCall(i, k, request)
  {
    if attempts == 0 then [] else ApiCalls(i, attempts - 1, request) + [ApiCall(i, attempts - 1, request)]
  }

  /** What one item does once it holds a token: its result and its downstream calls. */
  function Dispatch(env: Env, i: nat, p: ItemParams, token: Value): (Result<Value>, seq<Call>) {
    match ResolveBody(p.verb, p.body, env.parse)
    case Err(m) => (Err(m), [])
    case Ok(body) =>
      var request := BuildRequest(p.verb, p.url, token, p.query, body, p.responseFormat);
      var (reply, attempts) := Throttled(env.api(i), 0);
      var cs := ApiCalls(i, attempts, request);
      match reply
      case Response(b) => (Ok(FormatOutput(b, p.responseFormat, env.stringify)), cs)
      case HttpError(_, m) => (Err(m), cs)
  }

  datatype ItemRun = ItemRun(result: Result<Value>, cache: map<string, Value>, calls: seq<Call>)

  /** The body of the `try` block for item i, starting from the given cache. */
  function RunItem(env: Env, client: Client, i: nat, p: ItemParams, cache: map<string, Value>): ItemRun {
    var cached := CacheRead(cache, p.tenantId);
    if Truthy(cached) then
      var (result, cs) := Dispatch(env, i, p, cached);
      ItemRun(result, cache, cs)
    else
      var tokenRequest := TokenRequestFor(p.tenantId, client, env.encode);
      match GrantedToken(env.tokenReply(i), p.tenantId)
      case Err(m) => ItemRun(Err(m), cache, [TokenCall(i, p.tenantId, tokenRequest, false)])
      case Ok(token) =>
        var (result, cs) := Dispatch(env, i, p, token);
        ItemRun(result, cache[p.tenantId := token], [TokenCall(i, p.tenantId, tokenRequest, true)] + cs)
  }

  /** The per-item pipeline, as the batch loop sees it: item index, parameters, cache before. */
  type Step = (nat, ItemParams, map<string, Value>) -> ItemRun

  /** The pipeline of this node: RunItem with the execution's collaborators and client. */
  function ItemStep(env: Env, client: Client): Step {
    (i: nat, p: ItemParams, cache: map<string, Value>) => RunItem(env, client, i, p, cache)
  }

  /** The loop's state after a number of items: returned items, cache, calls, and the aborting error. */
  datatype Run = Run(results: seq<ItemOut>, cache: map<string, Value>, calls: seq<Call>, aborted: Option<string>)

  /** The state after the first n items; once aborted, later items are not processed. */
  function RunUpTo(step: Step, items: seq<ItemParams>, continueOnFail: bool, n: nat): Run
    requires n <= |items|
  {
    if n == 0 then Run([], map[], [], None)
    else
      var prev := RunUpTo(step, items, continueOnFail, n - 1);
      if prev.aborted.Some? then prev
      else
        var r := step(n - 1, items[n - 1], prev.cache);
        if r.result.Ok? || continueOnFail then
          Run(prev.results + [OutputOf(r.result)], r.cache, prev.calls + r.calls, None)
        else
          Run(prev.results, r.cache, prev.calls + r.calls, Some(r.result.error))
  }

  /** The whole execution: its outcome and the network calls it made. */
  function RunBatch(env: Env, creds: Credentials, items: seq<ItemParams>, continueOnFail: bool): (Outcome, seq<Call>) {
    var r := RunUpTo(ItemStep(env, ClientOf(creds)), items, continueOnFail, |items|);
    (if r.aborted.Some? then Aborted(r.aborted.value) else Completed(r.results), r.calls)
  }

  /** The tenants whose token exchange succeeded, according to a call log. */
  function GrantedTenants(calls: seq<Call>): set<string> {
    set c | c in calls && IsGrant(c) :: c.tenant
  }

  /** The number of successful token exchanges in a call log. */
  function GrantedCount(calls: seq<Call>): nat {
    if |calls| == 0 then 0
    else GrantedCount(calls[..|calls| - 1]) + (if IsGrant(calls[|calls| - 1]) then 1 else 0)
  }

  /** No tenant has two successful exchanges in the log. */
  ghost predicate DistinctGrants(calls: seq<Call>) {
    forall j, k :: 0 <= j < k < |calls| && IsGrant(calls[j]) && IsGrant(calls[k]) ==>
      calls[j].tenant != calls[k].tenant
  }

  /** The distinct tenant ids of the items. */
  function Tenants(items: seq<ItemParams>): set<string> {
    set j | 0 <= j < |items| :: items[j].tenantId
  }

  lemma SubsetCardinality<T>(a: set<T>, b: set<T>)
    requires a <= b
    ensures |a| <= |b|
  {
    assert b == a + (b - a);
    assert a * (b - a) == {};
  }

  lemma {:induction false} GrantedCountAppend(s: seq<Call>, t: seq<Call>)
    ensures GrantedCount(s + t) == GrantedCount(s) + GrantedCount(t)
    decreases |t|
  {
    if |t| > 0 {
      GrantedCountAppend(s, t[..|t| - 1]);
      assert (s + t)[..|s + t| - 1] == s + t[..|t| - 1];
    } else {
      assert s + t == s;
    }
  }

  lemma {:induction false} GrantedCountNone(s: seq<Call>)
    requires forall k :: 0 <= k < |s| ==> !IsGrant(s[k])
    ensures GrantedCount(s) == 0
  {
    if |s| > 0 {
      GrantedCountNone(s[..|s| - 1]);
    }
  }

  lemma GrantedTenantsAppend(s: seq<Call>, t: seq<Call>)
    ensures GrantedTenants(s + t) == GrantedTenants(s) + GrantedTenants(t)
  {
    assert forall c :: c in s + t <==> c in s || c in t;
  }

  /** The downstream calls of one item: at most six, numbered by attempt, each carrying the item's token. */
  lemma DispatchCalls(env: Env, i: nat, p: ItemParams, token: Value)
    ensures var (result, cs) := Dispatch(env, i, p, token);
      && |cs| <= MaxRetries + 1
      && (forall k :: 0 <= k < |cs| ==>
            && cs[k].ApiCall? && cs[k].item == i && cs[k].attempt == k
            && "Authorization" in cs[k].request.headers
            && cs[k].request.headers["Authorization"] == "Bearer " + ToJsString(token))
      && (ResolveBody(p.verb, p.body, env.parse).Err? ==> cs == [] && result == Err(InvalidBodyMessage))
  {
    ThrottledCharacterized(env.api(i), 0);
  }

  /** The calls one item makes and what it does to a valid cache. */
  ghost predicate WellShaped(r: ItemRun, i: nat, p: ItemParams, cache: map<string, Value>) {
    && CacheValid(r.cache)
    && (forall c :: c in r.calls ==> c.item == i)
    && (forall k :: 0 <= k < |r.calls| && r.calls[k].TokenCall? ==>
          k == 0 && r.calls[k].tenant == p.tenantId && p.tenantId !in cache)
    && (if |r.calls| > 0 && IsGrant(r.calls[0])
        then p.tenantId !in cache && p.tenantId in r.cache && r.cache == cache[p.tenantId := r.cache[p.tenantId]]
        else r.cache == cache)
  }

  ghost predicate StepWellShaped(step: Step) {
    forall i, p, cache :: CacheValid(cache) ==> WellShaped(step(i, p, cache), i, p, cache)
  }

  /**
   * One item makes at most one token call, first and only on a cache miss;
   * only a granted exchange adds an entry, for the item's own tenant; every
   * call is tagged with the item.
   */
  lemma RunItemShape(env: Env, client: Client, i: nat, p: ItemParams, cache: map<string, Value>)
    requires CacheValid(cache)
    ensures WellShaped(RunItem(env, client, i, p, cache), i, p, cache)
  {
    CacheHitIffPresent(cache, p.tenantId);
    if Truthy(CacheRead(cache, p.tenantId)) {
      DispatchCalls(env, i, p, cache[p.tenantId]);
    } else if GrantedToken(env.tokenReply(i), p.tenantId).Ok? {
      GrantedItemShape(env, client, i, p, cache);
    }
  }

  /** The miss-and-grant case of RunItemShape: the token call, then the item's downstream calls. */
  lemma GrantedItemShape(env: Env, client: Client, i: nat, p: ItemParams, cache: map<string, Value>)
    requires CacheValid(cache) && p.tenantId !in cache
    requires GrantedToken(env.tokenReply(i), p.tenantId).Ok?
    ensures WellShaped(RunItem(env, client, i, p, cache), i, p, cache)
  {
    var token := GrantedToken(env.tokenReply(i), p.tenantId).value;
    var r := RunItem(env, client, i, p, cache);
    DispatchCalls(env, i, p, token);
    var cs := Dispatch(env, i, p, token).1;
    assert r.calls == [TokenCall(i, p.tenantId, TokenRequestFor(p.tenantId, client, env.encode), true)] + cs;
    assert r.cache == cache[p.tenantId := token];
    forall c | c in r.calls ensures c.item == i {
      if c != r.calls[0] {
        assert c in cs;
      }
    }
  }

  lemma ItemStepWellShaped(env: Env, client: Client)
    ensures StepWellShaped(ItemStep(env, client))
  {
    forall i, p, cache | CacheValid(cache)
      ensures WellShaped(ItemStep(env, client)(i, p, cache), i, p, cache)
    {
      RunItemShape(env, client, i, p, cache);
    }
  }

  /** What holds of the loop's state after any number of items. */
  ghost predicate RunInvariant(items: seq<ItemParams>, n: nat, r: Run) {
    && CacheValid(r.cache)
    && r.cache.Keys == GrantedTenants(r.calls)
    && DistinctGrants(r.calls)
    && GrantedCount(r.calls) == |r.cache|
    && (forall c :: c in r.calls ==> c.item < n)
    && (forall c :: c in r.calls && c.TokenCall? ==> c.item < |items| && c.tenant == items[c.item].tenantId)
  }

  /**
   * The cache holds exactly the tenants whose exchange succeeded, each such
   * tenant succeeded once, and every call belongs to an item already processed.
   */
  lemma {:induction false} RunKeepsInvariant(step: Step, items: seq<ItemParams>, continueOnFail: bool, n: nat)
    requires StepWellShaped(step)
    requires n <= |items|
    ensures RunInvariant(items, n, RunUpTo(step, items, continueOnFail, n))
  {
    if n > 0 {
      RunKeepsInvariant(step, items, continueOnFail, n - 1);
      var prev := RunUpTo(step, items, continueOnFail, n - 1);
      var next := RunUpTo(step, items, continueOnFail, n);
      RunUpToNext(step, items, continueOnFail, n);
      if prev.aborted.None? {
        var r := step(n - 1, items[n - 1], prev.cache);
        assert CacheValid(prev.cache);
        assert WellShaped(r, n - 1, items[n - 1], prev.cache);
        InvariantStep(items, n, prev, r, next);
      } else {
        InvariantWeaken(items, n, prev);
      }
    } else {
      assert GrantedTenants([]) == {};
    }
  }

  /** How the n-th item changes the calls and the cache of the run. */
  lemma RunUpToNext(step: Step, items: seq<ItemParams>, continueOnFail: bool, n: nat)
    requires 0 < n <= |items|
    ensures var prev := RunUpTo(step, items, continueOnFail, n - 1);
      var next := RunUpTo(step, items, continueOnFail, n);
      && (prev.aborted.Some? ==> next == prev)
      && (prev.aborted.None? ==>
            && next.calls == prev.calls + step(n - 1, items[n - 1], prev.cache).calls
            && next.cache == step(n - 1, items[n - 1], prev.cache).cache)
  {
  }

  /** A state that holds after n - 1 items also holds after n when nothing was processed. */
  lemma InvariantWeaken(items: seq<ItemParams>, n: nat, r: Run)
    requires 0 < n
    requires RunInvariant(items, n - 1, r)
    ensures RunInvariant(items, n, r)
  {
  }

  /** One processed item keeps the invariant, whatever the step, as long as it is well shaped. */
  lemma InvariantStep(items: seq<ItemParams>, n: nat, prev: Run, r: ItemRun, next: Run)
    requires 0 < n <= |items|
    requires RunInvariant(items, n - 1, prev)
    requires WellShaped(r, n - 1, items[n - 1], prev.cache)
    requires next.calls == prev.calls + r.calls && next.cache == r.cache
    ensures RunInvariant(items, n, next)
  {
    GrantsStep(items[n - 1], prev, r);
    DistinctGrantsStep(items[n - 1], prev, r);
    forall c | c in next.calls ensures c.item < n {
      if c !in prev.calls { assert c in r.calls; }
    }
  }

  /** The item's own calls grant at most its tenant, and the cache and count follow. */
  lemma GrantsStep(p: ItemParams, prev: Run, r: ItemRun)
    requires prev.cache.Keys == GrantedTenants(prev.calls) && GrantedCount(prev.calls) == |prev.cache|
    requires forall k :: 0 <= k < |r.calls| && r.calls[k].TokenCall? ==> k == 0 && r.calls[k].tenant == p.tenantId
    requires if |r.calls| > 0 && IsGrant(r.calls[0])
             then p.tenantId !in prev.cache && p.tenantId in r.cache
                  && r.cache == prev.cache[p.tenantId := r.cache[p.tenantId]]
             else r.cache == prev.cache
    ensures r.cache.Keys == GrantedTenants(prev.calls + r.calls)
    ensures GrantedCount(prev.calls + r.calls) == |r.cache|
  {
    GrantedTenantsAppend(prev.calls, r.calls);
    GrantedCountAppend(prev.calls, r.calls);
    ItemGrants(r.calls);
  }

  /** In a log whose only token call can be the first, the grants are those of the first call. */
  lemma ItemGrants(calls: seq<Call>)
    requires forall k :: 0 < k < |calls| ==> !calls[k].TokenCall?
    ensures GrantedTenants(calls) == if |calls| > 0 && IsGrant(calls[0]) then {calls[0].tenant} else {}
    ensures GrantedCount(calls) == if |calls| > 0 && IsGrant(calls[0]) then 1 else 0
  {
    if |calls| > 0 {
      assert calls == [calls[0]] + calls[1..];
      GrantedCountAppend([calls[0]], calls[1..]);
      assert [calls[0]][..0] == [];
      GrantedCountNone(calls[1..]);
      forall c | c in calls[1..] ensures !IsGrant(c) {
        var k :| 0 <= k < |calls[1..]| && calls[1..][k] == c;
        assert c == calls[k + 1];
      }
      GrantedTenantsAppend([calls[0]], calls[1..]);
    } else {
      GrantedCountNone(calls);
    }
  }

  /** A grant made by the item is for a tenant that had none, so grants stay distinct. */
  lemma DistinctGrantsStep(p: ItemParams, prev: Run, r: ItemRun)
    requires prev.cache.Keys == GrantedTenants(prev.calls) && DistinctGrants(prev.calls)
    requires forall k :: 0 <= k < |r.calls| && r.calls[k].TokenCall? ==>
               k == 0 && r.calls[k].tenant == p.tenantId && p.tenantId !in prev.cache
    ensures DistinctGrants(prev.calls + r.calls)
  {
    var calls := prev.calls + r.calls;
    forall j, k | 0 <= j < k < |calls| && IsGrant(calls[j]) && IsGrant(calls[k])
      ensures calls[j].tenant != calls[k].tenant
    {
      if k >= |prev.calls| {
        assert calls[k] == r.calls[k - |prev.calls|];
        assert calls[j] in prev.calls;
      }
    }
  }

  /** Once an item has aborted the run, the state no longer changes. */
  lemma {:induction false} AbortedRunIsFinal(step: Step, items: seq<ItemParams>, continueOnFail: bool, n: nat, m: nat)
    requires n <= m <= |items|
    requires RunUpTo(step, items, continueOnFail, n).aborted.Some?
    ensures RunUpTo(step, items, continueOnFail, m) == RunUpTo(step, items, continueOnFail, n)
    decreases m - n
  {
    if n < m {
      AbortedRunIsFinal(step, items, continueOnFail, n, m - 1);
    }
  }

  /**
   * With continueOnFail, processing never aborts and yields exactly one entry
   * per item, in input order: entry j is item j's result or its error entry.
   */
  lemma {:induction false} ContinueOnFailOneEntryPerItem(step: Step, items: seq<ItemParams>, n: nat)
    requires n <= |items|
    ensures RunUpTo(step, items, true, n).aborted.None?
    ensures |RunUpTo(step, items, true, n).results| == n
    ensures forall j {:trigger RunUpTo(step, items, true, n).results[j]} :: 0 <= j < n ==>
      RunUpTo(step, items, true, n).results[j] == OutputOf(step(j, items[j], RunUpTo(step, items, true, j).cache).result)
  {
    if n > 0 {
      ContinueOnFailOneEntryPerItem(step, items, n - 1);
      var prev := RunUpTo(step, items, true, n - 1);
      var cur := RunUpTo(step, items, true, n);
      assert cur.results == prev.results + [OutputOf(step(n - 1, items[n - 1], prev.cache).result)];
      forall j | 0 <= j < n
        ensures cur.results[j] == OutputOf(step(j, items[j], RunUpTo(step, items, true, j).cache).result)
      {
        if j < n - 1 {
          assert cur.results[j] == prev.results[j];
        }
      }
    }
  }

  /** Without continueOnFail, the run returns one entry per item until it aborts. */
  lemma {:induction false} FailFastResultCount(step: Step, items: seq<ItemParams>, n: nat)
    requires n <= |items|
    ensures |RunUpTo(step, items, false, n).results| <= n
    ensures RunUpTo(step, items, false, n).aborted.None? ==> |RunUpTo(step, items, false, n).results| == n
  {
    if n > 0 {
      FailFastResultCount(step, items, n - 1);
    }
  }

  /** Without continueOnFail, every returned entry is the output of an item that succeeded. */
  lemma {:induction false} FailFastReturnsOnlySuccesses(step: Step, items: seq<ItemParams>, n: nat)
    requires n <= |items|
    ensures |RunUpTo(step, items, false, n).results| <= n
    ensures forall j {:trigger RunUpTo(step, items, false, n).results[j]} ::
      0 <= j < |RunUpTo(step, items, false, n).results| ==>
      && step(j, items[j], RunUpTo(step, items, false, j).cache).result.Ok?
      && RunUpTo(step, items, false, n).results[j] == OutputOf(step(j, items[j], RunUpTo(step, items, false, j).cache).result)
  {
    if n > 0 {
      FailFastReturnsOnlySuccesses(step, items, n - 1);
      FailFastResultCount(step, items, n - 1);
      var prev := RunUpTo(step, items, false, n - 1);
      var r := RunUpTo(step, items, false, n);
      var extended := prev.aborted.None? && step(n - 1, items[n - 1], prev.cache).result.Ok?;
      if extended {
        assert r.results == prev.results + [OutputOf(step(n - 1, items[n - 1], prev.cache).result)];
      } else {
        assert r.results == prev.results;
      }
      forall j | 0 <= j < |r.results|
        ensures step(j, items[j], RunUpTo(step, items, false, j).cache).result.Ok?
        ensures r.results[j] == OutputOf(step(j, items[j], RunUpTo(step, items, false, j).cache).result)
      {
        if j < |prev.results| {
          assert r.results[j] == prev.results[j];
        } else {
          assert extended && j == n - 1;
        }
      }
    }
  }

  /**
   * Without continueOnFail, an aborted run stopped at the item just after the
   * returned ones: its error is that item's, and the state is the one right
   * after that item.
   */
  lemma {:induction false} FailFastStopsAtFirstError(step: Step, items: seq<ItemParams>, n: nat)
    requires n <= |items|
    requires RunUpTo(step, items, false, n).aborted.Some?
    ensures var k := |RunUpTo(step, items, false, n).results|;
      && k < n
      && step(k, items[k], RunUpTo(step, items, false, k).cache).result == Err(RunUpTo(step, items, false, n).aborted.value)
      && RunUpTo(step, items, false, k + 1) == RunUpTo(step, items, false, n)
  {
    var prev := RunUpTo(step, items, false, n - 1);
    if prev.aborted.Some? {
      FailFastStopsAtFirstError(step, items, n - 1);
    } else {
      FailFastResultCount(step, items, n - 1);
    }
  }

  /** Without continueOnFail, no call is made for an item after the one that aborted the run. */
  lemma FailFastMakesNoLaterCalls(step: Step, items: seq<ItemParams>)
    requires StepWellShaped(step)
    ensures var r := RunUpTo(step, items, false, |items|);
      r.aborted.Some? ==> forall c :: c in r.calls ==> c.item <= |r.results|
  {
    var r := RunUpTo(step, items, false, |items|);
    if r.aborted.Some? {
      FailFastStopsAtFirstError(step, items, |items|);
      RunKeepsInvariant(step, items, false, |r.results| + 1);
    }
  }

  /**
   * Each tenant's token is obtained by at most one successful exchange per
   * execution, so there are no more successful exchanges than distinct tenants.
   */
  lemma ExchangesBoundedByTenants(env: Env, creds: Credentials, items: seq<ItemParams>, continueOnFail: bool)
    ensures DistinctGrants(RunBatch(env, creds, items, continueOnFail).1)
    ensures GrantedCount(RunBatch(env, creds, items, continueOnFail).1) <= |Tenants(items)|
  {
    var step := ItemStep(env, ClientOf(creds));
    var r := RunUpTo(step, items, continueOnFail, |items|);
    ItemStepWellShaped(env, ClientOf(creds));
    RunKeepsInvariant(step, items, continueOnFail, |items|);
    forall t | t in r.cache.Keys ensures t in Tenants(items) {
      var c :| c in r.calls && IsGrant(c) && c.tenant == t;
    }
    SubsetCardinality(r.cache.Keys, Tenants(items));
  }

  /** A tenant already cached is served from the cache: no token call, no cache change, its token on every attempt. */
  lemma CachedTenantReusesToken(env: Env, client: Client, i: nat, p: ItemParams, cache: map<string, Value>)
    requires CacheValid(cache) && p.tenantId in cache
    ensures var r := RunItem(env, client, i, p, cache);
      && r.cache == cache
      && |r.calls| <= MaxRetries + 1
      && (forall k :: 0 <= k < |r.calls| ==>
            && r.calls[k] == ApiCall(i, k, r.calls[k].request)
            && "Authorization" in r.calls[k].request.headers
            && r.calls[k].request.headers["Authorization"] == "Bearer " + ToJsString(cache[p.tenantId]))
  {
    CacheHitIffPresent(cache, p.tenantId);
    DispatchCalls(env, i, p, cache[p.tenantId]);
  }

  /** A reply without a truthy access_token fails the item, caches nothing and makes no downstream call. */
  lemma MissingAccessTokenFailsItem(env: Env, client: Client, i: nat, p: ItemParams, cache: map<string, Value>)
    requires CacheValid(cache) && p.tenantId !in cache
    requires env.tokenReply(i).Replied? && AccessTokenField(env.tokenReply(i).body).Ok?
    requires !Truthy(AccessTokenField(env.tokenReply(i).body).value)
    ensures RunItem(env, client, i, p, cache) ==
      ItemRun(Err(MissingTokenMessage(p.tenantId)), cache,
              [TokenCall(i, p.tenantId, TokenRequestFor(p.tenantId, client, env.encode), false)])
  {
    CacheHitIffPresent(cache, p.tenantId);
  }

  /** A reply body that is text rather than JSON, such as an HTML page, fails the item the same way. */
  lemma TextTokenReplyFailsItem(env: Env, client: Client, i: nat, p: ItemParams, cache: map<string, Value>)
    requires CacheValid(cache) && p.tenantId !in cache
    requires env.tokenReply(i) == Replied(Str("<html>"))
    ensures RunItem(env, client, i, p, cache).result == Err(MissingTokenMessage(p.tenantId))
    ensures RunItem(env, client, i, p, cache).cache == cache
    ensures |RunItem(env, client, i, p, cache).calls| == 1
  {
    MissingAccessTokenFailsItem(env, client, i, p, cache);
  }

  /** A granted token is cached for the tenant, and every attempt of the item carries it. */
  lemma GrantedTokenIsCached(env: Env, client: Client, i: nat, p: ItemParams, cache: map<string, Value>)
    requires CacheValid(cache) && p.tenantId !in cache
    requires GrantedToken(env.tokenReply(i), p.tenantId).Ok?
    ensures var token := GrantedToken(env.tokenReply(i), p.tenantId).value;
      var r := RunItem(env, client, i, p, cache);
      && r.cache == cache[p.tenantId := token]
      && 1 <= |r.calls| <= MaxRetries + 2
      && r.calls[0] == TokenCall(i, p.tenantId, TokenRequestFor(p.tenantId, client, env.encode), true)
      && (forall k :: 1 <= k < |r.calls| ==>
            && r.calls[k] == ApiCall(i, k - 1, r.calls[k].request)
            && "Authorization" in r.calls[k].request.headers
            && r.calls[k].request.headers["Authorization"] == "Bearer " + ToJsString(token))
  {
    CacheHitIffPresent(cache, p.tenantId);
    var token := GrantedToken(env.tokenReply(i), p.tenantId).value;
    DispatchCalls(env, i, p, token);
  }

  /** A non-blank text body that does not parse fails the item before any downstream call. */
  lemma InvalidBodyFailsItem(env: Env, i: nat, p: ItemParams, token: Value)
    requires HasBody(p.verb) && IsJsonText(p.body) && env.parse(p.body.s).None?
    ensures Dispatch(env, i, p, token) == (Err("Body must be valid JSON"), [])
  {
  }

  /**
   * Two items for tenant "T1", a GET and a POST with an object body: one token
   * exchange, one downstream call per item, both outputs in order, and a JSON
   * Content-Type only on the request that has a body.
   */
  lemma SameTenantTwoItemsOneExchange(env: Env, creds: Credentials)
    requires env.tokenReply(0) == Replied(Obj(map["access_token" := Str("t0")]))
    requires env.api(0)(0).Response? && env.api(1)(0).Response?
    ensures var (outcome, calls) := RunBatch(env, creds, [GetMe, PostUser], true);
      && outcome == Completed([ItemOut(env.api(0)(0).body), ItemOut(env.api(1)(0).body)])
      && |calls| == 3
      && calls[0].TokenCall? && calls[0].tenant == "T1" && calls[0].granted
      && calls[1].ApiCall? && calls[1].item == 0 && "Content-Type" !in calls[1].request.headers
      && calls[2].ApiCall? && calls[2].item == 1 && "Content-Type" in calls[2].request.headers
  {
    var items := [GetMe, PostUser];
    var client := ClientOf(creds);
    var step := ItemStep(env, client);
    FirstItemGrants(env, client);
    var r0 := RunItem(env, client, 0, items[0], map[]);
    SecondItemReusesToken(env, client, r0.cache);
    TwoItemRun(step, items);
  }

  /** A two-item run with continueOnFail, spelled out: both items in order, from an empty cache. */
  lemma TwoItemRun(step: Step, items: seq<ItemParams>)
    requires |items| == 2
    ensures var r0 := step(0, items[0], map[]);
      var r1 := step(1, items[1], r0.cache);
      RunUpTo(step, items, true, 2) ==
        Run([OutputOf(r0.result), OutputOf(r1.result)], r1.cache, r0.calls + r1.calls, None)
  {
    var run0 := RunUpTo(step, items, true, 0);
    assert run0 == Run([], map[], [], None);
    var r0 := step(0, items[0], run0.cache);
    var run1 := RunUpTo(step, items, true, 1);
    assert run1 == Run(run0.results + [OutputOf(r0.result)], r0.cache, run0.calls + r0.calls, None);
    assert run0.results + [OutputOf(r0.result)] == [OutputOf(r0.result)];
    assert run0.calls + r0.calls == r0.calls;
    var r1 := step(1, items[1], run1.cache);
    assert RunUpTo(step, items, true, 2) ==
      Run(run1.results + [OutputOf(r1.result)], r1.cache, run1.calls + r1.calls, None);
  }

  /** Scenario item 0: a GET for tenant "T1". */
  const GetMe := ItemParams("T1", "GET", "https://api.example/v1/me", [], Obj(map[]), "json")

  /** Scenario item 1: a POST with an object body for the same tenant. */
  const PostUser := ItemParams("T1", "POST", "https://api.example/v1/users", [], Obj(map["name" := Str("A")]), "json")

  /** When the first attempt gets a response, the item makes exactly one downstream call and returns that response. */
  lemma FirstAttemptSucceeds(env: Env, i: nat, p: ItemParams, token: Value, body: Value)
    requires ResolveBody(p.verb, p.body, env.parse) == Ok(body)
    requires env.api(i)(0).Response? && p.responseFormat != "string"
    ensures Dispatch(env, i, p, token) ==
      (Ok(env.api(i)(0).body), [ApiCall(i, 0, BuildRequest(p.verb, p.url, token, p.query, body, p.responseFormat))])
  {
    assert Throttled(env.api(i), 0) == (env.api(i)(0), 1);
    var request := BuildRequest(p.verb, p.url, token, p.query, body, p.responseFormat);
    assert ApiCalls(i, 1, request) == [ApiCall(i, 0, request)];
  }

  /**
   * On a miss, a granted exchange followed by a first attempt that gets a
   * response: the item makes the token call and one downstream call.
   */
  lemma GrantedThenFirstAttemptSucceeds(env: Env, client: Client, i: nat, p: ItemParams,
                                        cache: map<string, Value>, token: Value, body: Value)
    requires CacheValid(cache) && p.tenantId !in cache
    requires GrantedToken(env.tokenReply(i), p.tenantId) == Ok(token)
    requires ResolveBody(p.verb, p.body, env.parse) == Ok(body)
    requires env.api(i)(0).Response? && p.responseFormat != "string"
    ensures var r := RunItem(env, client, i, p, cache);
      && r.result == Ok(env.api(i)(0).body)
      && r.cache == cache[p.tenantId := token]
      && |r.calls| == 2 && r.calls[0].TokenCall? && r.calls[0].tenant == p.tenantId && r.calls[0].granted
      && r.calls[1] == ApiCall(i, 0, BuildRequest(p.verb, p.url, token, p.query, body, p.responseFormat))
  {
    CacheHitIffPresent(cache, p.tenantId);
    FirstAttemptSucceeds(env, i, p, token, body);
  }

  /** With an empty cache, item 0 exchanges a token for "T1", caches it and makes one bodiless call. */
  lemma FirstItemGrants(env: Env, client: Client)
    requires env.tokenReply(0) == Replied(Obj(map["access_token" := Str("t0")]))
    requires env.api(0)(0).Response?
    ensures var r0 := RunItem(env, client, 0, GetMe, map[]);
      && r0.result == Ok(env.api(0)(0).body)
      && r0.cache == map["T1" := Str("t0")]
      && |r0.calls| == 2 && r0.calls[0].TokenCall? && r0.calls[0].tenant == "T1" && r0.calls[0].granted
      && r0.calls[1].ApiCall? && r0.calls[1].item == 0 && "Content-Type" !in r0.calls[1].request.headers
  {
    var token := Str("t0");
    assert GrantedToken(env.tokenReply(0), "T1") == Ok(token);
    assert ResolveBody("GET", Obj(map[]), env.parse) == Ok(Undefined);
    GrantedThenFirstAttemptSucceeds(env, client, 0, GetMe, map[], token, Undefined);
  }

  /** With "T1" cached, item 1 makes one call carrying a JSON Content-Type and no exchange. */
  lemma SecondItemReusesToken(env: Env, client: Client, cache: map<string, Value>)
    requires cache == map["T1" := Str("t0")]
    requires env.api(1)(0).Response?
    ensures var r1 := RunItem(env, client, 1, PostUser, cache);
      && r1.result == Ok(env.api(1)(0).body)
      && r1.cache == cache
      && |r1.calls| == 1 && r1.calls[0].ApiCall? && r1.calls[0].item == 1
      && "Content-Type" in r1.calls[0].request.headers
  {
    var token := Str("t0");
    assert CacheRead(cache, "T1") == token;
    var body := Obj(map["name" := Str("A")]);
    assert ResolveBody("POST", body, env.parse) == Ok(body);
    FirstAttemptSucceeds(env, 1, PostUser, token, body);
  }

  /**
   * A cached tenant's item whose body is text that starts with a non-space
   * character and does not parse is recorded as the error entry, with no call.
   */
  lemma UnparsableTextIsRecorded(env: Env, client: Client, i: nat, p: ItemParams, cache: map<string, Value>)
    requires CacheValid(cache) && p.tenantId in cache
    requires HasBody(p.verb) && p.body.Str? && |p.body.s| > 0 && !IsJsSpace(p.body.s[0])
    requires env.parse(p.body.s) == None
    ensures OutputOf(RunItem(env, client, i, p, cache).result) == ErrorItem(InvalidBodyMessage)
    ensures RunItem(env, client, i, p, cache).calls == []
  {
    TrimEmptyIffBlank(p.body.s);
    InvalidBodyFailsItem(env, i, p, cache[p.tenantId]);
    CacheHitIffPresent(cache, p.tenantId);
  }

  /** A POST whose body is the text "{bad json" is recorded as the error entry, with no downstream call. */
  lemma MalformedBodyIsRecorded(env: Env, client: Client, i: nat, cache: map<string, Value>)
    requires CacheValid(cache) && "T1" in cache
    requires env.parse("{bad json") == None
    ensures var r := RunItem(env, client, i, ItemParams("T1", "POST", "https://api.example/v1/users", [], Str("{bad json"), "json"), cache);
      && OutputOf(r.result) == ErrorItem("Body must be valid JSON")
      && r.calls == []
  {
    var p := ItemParams("T1", "POST", "https://api.example/v1/users", [], Str("{bad json"), "json");
    assert !IsJsSpace(p.body.s[0]);
    UnparsableTextIsRecorded(env, client, i, p, cache);
  }

  /**
   * The `try` block for item i: resolve the token (updating the cache on a
   * granted exchange), build the request, send it with the retry loop and
   * format the response.
   */
  method ProcessItem(env: Env, client: Client, i: nat, p: ItemParams, tokenCache: map<string, Value>)
    returns (result: Result<Value>, newCache: map<string, Value>, itemCalls: seq<Call>)
    ensures ItemRun(result, newCache, itemCalls) == RunItem(env, client, i, p, tokenCache)
  {
    newCache := tokenCache;
    itemCalls := [];
    var accessToken := CacheRead(tokenCache, p.tenantId);
    if !Truthy(accessToken) {
      var tokenRequest := TokenRequestFor(p.tenantId, client, env.encode);
      var granted := GrantedToken(env.tokenReply(i), p.tenantId);
      itemCalls := [TokenCall(i, p.tenantId, tokenRequest, granted.Ok?)];
      if granted.Err? {
        result := Err(granted.error);
        return;
      }
      accessToken := granted.value;
      newCache := tokenCache[p.tenantId := accessToken];
    }
    var body := ResolveBody(p.verb, p.body, env.parse);
    if body.Err? {
      result := Err(body.error);
      return;
    }
    var request := BuildRequest(p.verb, p.url, accessToken, p.query, body.value, p.responseFormat);
    var reply, attempts := SendWithRetry(env.api(i));
    itemCalls := itemCalls + ApiCalls(i, attempts, request);
    if reply.Response? {
      result := Ok(FormatOutput(reply.body, p.responseFormat, env.stringify));
    } else {
      result := Err(reply.message);
    }
  }

  /**
   * The execution loop over the input items, in order, with the
   * token cache and the returned items as local state.
   */
  method Execute(items: seq<ItemParams>, creds: Credentials, continueOnFail: bool, env: Env)
    returns (outcome: Outcome, calls: seq<Call>)
    ensures (outcome, calls) == RunBatch(env, creds, items, continueOnFail)
    ensures continueOnFail ==> outcome.Completed? && |outcome.items| == |items|
    ensures DistinctGrants(calls) && GrantedCount(calls) <= |Tenants(items)|
  {
    var returnItems: seq<ItemOut> := [];
    var tokenCache: map<string, Value> := map[];
    var client := ClientOf(creds);
    ghost var step := ItemStep(env, client);
    calls := [];
    ExchangesBoundedByTenants(env, creds, items, continueOnFail);
    ContinueOnFailOneEntryPerItem(step, items, |items|);
    for i := 0 to |items|
      invariant RunUpTo(step, items, continueOnFail, i) == Run(returnItems, tokenCache, calls, None)
    {
      var result, newCache, itemCalls := ProcessItem(env, client, i, items[i], tokenCache);
      assert step(i, items[i], tokenCache) == ItemRun(result, newCache, itemCalls);
      tokenCache := newCache;
      calls := calls + itemCalls;
      if result.Ok? {
        returnItems := returnItems + [ItemOut(result.value)];
      } else if continueOnFail {
        returnItems := returnItems + [ErrorItem(result.error)];
      } else {
        outcome := Aborted(result.error);
        AbortedRunIsFinal(step, items, continueOnFail, i + 1, |items|);
        return;
      }
    }
    outcome := Completed(returnItems);
  }
}
