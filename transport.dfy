/**
 * The retrying HTTP transport of the client (lib/InfluxRequest.js).
 *
 * Each attempt merges the request options over `{retries: 0}` and the
 * default request options, remembers the first URL path as `originalUrl`,
 * rebuilds `url` from the server's origin and that path, and counts itself in
 * `retries`. A failure whose error code is one of five socket codes is
 * resubmitted while `maxRetries >= retries`; anything else, and the last
 * failure, goes to the callback.
 *
 * The HTTP call itself is a parameter: `net(k)` is what the `k`-th attempt
 * (from 0) receives. The callbacks become a loop.
 */
module Transport {
  import opened Wrappers
  import opened JsValues
  import opened Responses
  import Retry

  /** The error codes on which a request is resubmitted. */
  const ResubmitErrorCodes: seq<string> := ["ETIMEDOUT", "ESOCKETTIMEDOUT", "ECONNRESET", "ECONNREFUSED", "EHOSTUNREACH"]

  /** What one attempt receives: an error, or a response's status and body. */
  datatype Reply = Reply(err: Option<Err>, statusCode: int, body: Body)

  /** `err && resubmitErrorCodes.indexOf(err.code) !== -1`. */
  predicate Retryable(err: Option<Err>) {
    err.Some? && err.value.code.Str? && err.value.code.s in ResubmitErrorCodes
  }

  /** `url.format({protocol, hostname, port})` for a protocol with slashes
      (such as `http`), without percent-encoding: the port is added when it is
      truthy. */
  function Origin(protocol: string, host: string, port: Value): string {
    protocol + "://" + host + (if Truthy(port) then ":" + Text(port) else "")
  }

  /** `InfluxRequest.prototype.url`: the origin, a slash, and the path. */
  function TargetUrl(origin: string, path: Value): string {
    origin + "/" + Text(path)
  }

  /** Request options are a plain object, which may carry a `retries` count
      only as a number. */
  predicate RetriesNumeric(o: KeyValues) {
    DistinctKeys(o) && (!Has(o, "retries") || Get(o, "retries").Num?)
  }

  /** The count in `retries` after the merge over `{retries: 0}`. */
  function RetriesOf(o: KeyValues): int {
    if Get(o, "retries").Num? then Get(o, "retries").n else 0
  }

  /** The path every attempt targets: the stored `originalUrl` when it is
      truthy, and the `url` otherwise. */
  function PathOf(o: KeyValues): Value {
    if Truthy(Get(o, "originalUrl")) then Get(o, "originalUrl") else Get(o, "url")
  }

  /** `_.extend({retries: 0}, defaultRequestOptions, options)`. */
  function RequestMerge(defaultTimeout: Value, options: KeyValues): KeyValues {
    Assign(Assign([("retries", Num(0))], [("timeout", defaultTimeout)]), options)
  }

  /** The path is stored once, when no truthy `originalUrl` is there yet. */
  function StoreOriginal(o: KeyValues): KeyValues {
    if !Truthy(Get(o, "originalUrl")) then Set(o, "originalUrl", Get(o, "url")) else o
  }

  /** `url` is rebuilt from the origin and the stored path. */
  function Aim(o: KeyValues, origin: string): KeyValues {
    Set(o, "url", Str(TargetUrl(origin, Get(o, "originalUrl"))))
  }

  /** `requestOptions.retries++`. */
  function Count(o: KeyValues): KeyValues {
    Set(o, "retries", Num(RetriesOf(o) + 1))
  }

  /** The options one attempt of `_request` hands to the HTTP call. */
  function Prepare(defaultTimeout: Value, origin: string, options: KeyValues): KeyValues {
    Count(Aim(StoreOriginal(RequestMerge(defaultTimeout, options)), origin))
  }

  /** A reply is resubmitted when its error code is one of the five. */
  predicate RetryableReply(r: Reply) {
    Retryable(r.err)
  }

  /** `prepare` is the preparation `_request` performs for a default
      timeout and a server's origin. */
  ghost predicate Prepares(prepare: KeyValues -> KeyValues, defaultTimeout: Value, origin: string) {
    Retry.Counting(prepare, RetriesNumeric, RetriesOf)
    && forall o {:trigger prepare(o)} :: RetriesNumeric(o) ==> prepare(o) == Prepare(defaultTimeout, origin, o)
  }

  /** The preparation as a function value; it counts each attempt. */
  function PrepareWith(defaultTimeout: Value, origin: string): (prepare: KeyValues -> KeyValues)
    ensures Prepares(prepare, defaultTimeout, origin)
  {
    PrepareCounts(defaultTimeout, origin);
    o => Prepare(defaultTimeout, origin, o)
  }

  /** The merge: a key of the options keeps its value, and the others come
      from `{retries: 0}` and the default timeout. */
  lemma RequestMergeGet(defaultTimeout: Value, options: KeyValues, k: string)
    requires DistinctKeys(options)
    ensures DistinctKeys(RequestMerge(defaultTimeout, options))
    ensures Has(RequestMerge(defaultTimeout, options), "timeout")
    ensures Get(RequestMerge(defaultTimeout, options), k) ==
              if Has(options, k) then Get(options, k)
              else if k == "retries" then Num(0)
              else if k == "timeout" then defaultTimeout
              else Undefined
  {
    var base := [("retries", Num(0))];
    var defaults := [("timeout", defaultTimeout)];
    assert Keys(defaults) == ["timeout"] && Keys(base) == ["retries"];
    assert DistinctKeys(defaults) && DistinctKeys(base);
    AssignGet(base, defaults, k);
    AssignGet(Assign(base, defaults), options, k);
    AssignGet(base, defaults, "timeout");
    AssignGet(Assign(base, defaults), options, "timeout");
  }

  /** The steps after the merge: the path is stored, `url` is aimed at it, and
      the count goes up by one; no other key changes. */
  lemma StepsGet(o: KeyValues, origin: string, k: string)
    ensures var ro := Count(Aim(StoreOriginal(o), origin));
            RetriesOf(ro) == RetriesOf(o) + 1 && Get(ro, "retries").Num?
            && Get(ro, "originalUrl") == PathOf(o)
            && Get(ro, "url") == Str(TargetUrl(origin, PathOf(o)))
            && (k != "retries" && k != "url" && k != "originalUrl" ==> Get(ro, k) == Get(o, k) && (Has(ro, k) <==> Has(o, k)))
            && (DistinctKeys(o) ==> DistinctKeys(ro))
  {
  }

  /** One attempt counts itself, keeps the path and the timeout, and targets
      the origin plus that path. */
  lemma PrepareFacts(defaultTimeout: Value, origin: string, options: KeyValues)
    requires RetriesNumeric(options)
    ensures var ro := Prepare(defaultTimeout, origin, options);
            RetriesNumeric(ro) && RetriesOf(ro) == RetriesOf(options) + 1
            && Get(ro, "originalUrl") == PathOf(options)
            && Get(ro, "url") == Str(TargetUrl(origin, PathOf(options)))
            && Get(ro, "timeout") == (if Has(options, "timeout") then Get(options, "timeout") else defaultTimeout)
            && Has(ro, "timeout")
            && Get(ro, "method") == Get(options, "method")
  {
    var merged := RequestMerge(defaultTimeout, options);
    RequestMergeGet(defaultTimeout, options, "retries");
    RequestMergeGet(defaultTimeout, options, "timeout");
    RequestMergeGet(defaultTimeout, options, "method");
    RequestMergeGet(defaultTimeout, options, "url");
    RequestMergeGet(defaultTimeout, options, "originalUrl");
    StepsGet(merged, origin, "timeout");
    StepsGet(merged, origin, "method");
  }

  /** `_request`'s preparation counts each attempt. */
  lemma PrepareCounts(defaultTimeout: Value, origin: string)
    ensures forall o :: RetriesNumeric(o) ==>
              RetriesNumeric(Prepare(defaultTimeout, origin, o)) && RetriesOf(Prepare(defaultTimeout, origin, o)) == RetriesOf(o) + 1
  {
    forall o | RetriesNumeric(o)
      ensures RetriesNumeric(Prepare(defaultTimeout, origin, o)) && RetriesOf(Prepare(defaultTimeout, origin, o)) == RetriesOf(o) + 1
    {
      PrepareFacts(defaultTimeout, origin, o);
    }
  }

  /** `options.maxRetries || 2`: an absent or zero count becomes 2. */
  function DefaultMaxRetries(given: Option<int>): (n: int)
    ensures given.Some? && given.value != 0 ==> n == given.value
    ensures given.None? || given.value == 0 ==> n == 2
    ensures n != 0
  {
    if given.Some? && given.value != 0 then given.value else 2
  }

  // ---------------------------------------------------------------------
  // The transport object
  // ---------------------------------------------------------------------

  class InfluxRequest {
    var index: int
    var host: string
    var port: Value
    var protocol: string
    /** `defaultRequestOptions.timeout`. */
    var defaultTimeout: Value
    /** `options.maxRetries`. */
    var maxRetries: int

    /** `new InfluxRequest(options)`. */
    constructor (host: string, port: Value, protocol: string, requestTimeout: Value, maxRetries: Option<int>)
      ensures this.index == 0 && this.host == host && this.port == port && this.protocol == protocol
      ensures this.defaultTimeout == requestTimeout
      ensures this.maxRetries == DefaultMaxRetries(maxRetries)
    {
      this.index := 0;
      this.host := host;
      this.port := port;
      this.protocol := protocol;
      this.defaultTimeout := Null;
      this.maxRetries := 0;
      new;
      var _ := SetRequestTimeout(requestTimeout);
      this.maxRetries := DefaultMaxRetries(maxRetries);
    }

    /** Stores the default timeout of later requests and returns it. */
    method SetRequestTimeout(value: Value) returns (r: Value)
      modifies this
      ensures r == value && defaultTimeout == value
      ensures index == old(index) && host == old(host) && port == old(port) && protocol == old(protocol)
      ensures maxRetries == old(maxRetries)
    {
      defaultTimeout := value;
      return value;
    }

    function OriginOf(): string
      reads this
    {
      Origin(protocol, host, port)
    }

    /** `_request` and the retry loop of `_parseCallback`: the reply the
        callback receives, and the options of every attempt, in order. */
    method Request(options: KeyValues, net: nat -> Reply) returns (reply: Reply, sent: seq<KeyValues>)
      requires RetriesNumeric(options)
      ensures (reply, sent) == Retry.Attempts(maxRetries, PrepareWith(defaultTimeout, OriginOf()), RetriesNumeric, RetriesOf, RetryableReply, options, net, 0)
    {
      var prepare := PrepareWith(defaultTimeout, OriginOf());
      ghost var total := Retry.Attempts(maxRetries, prepare, RetriesNumeric, RetriesOf, RetryableReply, options, net, 0);
      var current := options;
      var k: nat := 0;
      sent := [];
      while true
        invariant RetriesNumeric(current)
        invariant total.0 == Retry.Attempts(maxRetries, prepare, RetriesNumeric, RetriesOf, RetryableReply, current, net, k).0
        invariant total.1 == sent + Retry.Attempts(maxRetries, prepare, RetriesNumeric, RetriesOf, RetryableReply, current, net, k).1
        decreases maxRetries + 1 - RetriesOf(current)
      {
        var requestOptions := Attempt(current);
        assert requestOptions == prepare(current);
        var r := net(k);
        Retry.AttemptsStep(maxRetries, prepare, RetriesNumeric, RetriesOf, RetryableReply, current, net, k, sent);
        sent := sent + [requestOptions];
        if Retryable(r.err) && maxRetries >= RetriesOf(requestOptions) {
          current := requestOptions;
          k := k + 1;
        } else {
          return r, sent;
        }
      }
    }

    /** The body of `_request` before the HTTP call: the options of one attempt. */
    method Attempt(options: KeyValues) returns (requestOptions: KeyValues)
      requires RetriesNumeric(options)
      ensures requestOptions == Prepare(defaultTimeout, OriginOf(), options)
      ensures RetriesNumeric(requestOptions) && RetriesOf(requestOptions) == RetriesOf(options) + 1
    {
      var merged := RequestMerge(defaultTimeout, options);
      requestOptions := merged;
      if !Truthy(JsValues.Get(requestOptions, "originalUrl")) {
        requestOptions := Set(requestOptions, "originalUrl", JsValues.Get(requestOptions, "url"));
      }
      StoreStep(merged, requestOptions);
      ghost var stored := requestOptions;
      requestOptions := Set(requestOptions, "url", Str(TargetUrl(OriginOf(), JsValues.Get(requestOptions, "originalUrl"))));
      assert requestOptions == Aim(stored, OriginOf());
      ghost var aimed := requestOptions;
      requestOptions := Set(requestOptions, "retries", Num(RetriesOf(requestOptions) + 1));
      assert requestOptions == Count(aimed);
      PrepareFacts(defaultTimeout, OriginOf(), options);
    }

    /** `get`: a request with the caller's options as they are. */
    method Get(options: JsObject, net: nat -> Reply) returns (reply: Reply, sent: seq<KeyValues>)
      requires RetriesNumeric(options.entries)
      ensures (reply, sent) == Retry.Attempts(maxRetries, PrepareWith(defaultTimeout, OriginOf()), RetriesNumeric, RetriesOf, RetryableReply, options.entries, net, 0)
    {
      reply, sent := Request(options.entries, net);
    }

    /** `post`: sets `method` to `POST` on the caller's options, then requests. */
    method Post(options: JsObject, net: nat -> Reply) returns (reply: Reply, sent: seq<KeyValues>)
      requires RetriesNumeric(options.entries)
      modifies options
      ensures options.entries == Set(old(options.entries), "method", Str("POST"))
      ensures (reply, sent) == Retry.Attempts(maxRetries, PrepareWith(defaultTimeout, OriginOf()), RetriesNumeric, RetriesOf, RetryableReply, options.entries, net, 0)
    {
      options.entries := Set(options.entries, "method", Str("POST"));
      reply, sent := Request(options.entries, net);
    }
  }

  /** The conditional assignment of `originalUrl` computes `StoreOriginal`. */
  lemma StoreStep(merged: KeyValues, stored: KeyValues)
    requires stored == if !Truthy(Get(merged, "originalUrl")) then Set(merged, "originalUrl", Get(merged, "url")) else merged
    ensures stored == StoreOriginal(merged)
  {
  }

  // ---------------------------------------------------------------------
  // What a request guarantees
  // ---------------------------------------------------------------------
  // The bound on the attempts, the reply the callback receives and the count
  // each attempt carries hold of any counting preparation and are stated in
  // module Retry; the lemmas below add what `_request`'s own preparation
  // does. They take the preparation as `prepare`, which `Request`, `Get` and
  // `Post` instantiate with `PrepareWith(defaultTimeout, OriginOf())`.

  /** A reply that is not retryable, which includes every received response
      whatever its status, ends the request after one attempt. */
  lemma NoResubmitOnResponse(maxRetries: int, prepare: KeyValues -> KeyValues, defaultTimeout: Value, origin: string,
                             options: KeyValues, net: nat -> Reply)
    requires Prepares(prepare, defaultTimeout, origin) && RetriesNumeric(options)
    requires !Retryable(net(0).err)
    ensures Retry.Attempts(maxRetries, prepare, RetriesNumeric, RetriesOf, RetryableReply, options, net, 0) == (net(0), [Prepare(defaultTimeout, origin, options)])
  {
    Retry.FinalAtOnce(maxRetries, prepare, RetriesNumeric, RetriesOf, RetryableReply, options, net, 0);
  }

  /** When every attempt fails with a retryable error, the request is made
      exactly as often as the bound allows: `maxRetries + 1` times for a
      caller's options without a count. */
  lemma AllRetryable(maxRetries: int, prepare: KeyValues -> KeyValues, options: KeyValues, net: nat -> Reply)
    requires Retry.Counting(prepare, RetriesNumeric, RetriesOf) && RetriesNumeric(options)
    requires forall i :: Retryable(net(i).err)
    ensures var a := Retry.Attempts(maxRetries, prepare, RetriesNumeric, RetriesOf, RetryableReply, options, net, 0);
            |a.1| == Retry.MaxAttempts(maxRetries, RetriesOf(options))
            && (!Has(options, "retries") && maxRetries >= 0 ==> |a.1| == maxRetries + 1)
  {
    assert forall i :: 0 <= i ==> RetryableReply(net(i));
    Retry.AllRetryable(maxRetries, prepare, RetriesNumeric, RetriesOf, RetryableReply, options, net, 0);
  }

  /** The timeout an attempt from `o` is made with. */
  function TimeoutOf(defaultTimeout: Value, o: KeyValues): Value {
    if Has(o, "timeout") then Get(o, "timeout") else defaultTimeout
  }

  /** The timeout and the method of the options reach every attempt
      unchanged. */
  lemma KeptOnEveryAttempt(maxRetries: int, prepare: KeyValues -> KeyValues, defaultTimeout: Value, origin: string,
                           options: KeyValues, net: nat -> Reply)
    requires Prepares(prepare, defaultTimeout, origin) && RetriesNumeric(options)
    ensures var sent := Retry.Attempts(maxRetries, prepare, RetriesNumeric, RetriesOf, RetryableReply, options, net, 0).1;
            forall i :: 0 <= i < |sent| ==>
              Get(sent[i], "timeout") == TimeoutOf(defaultTimeout, options)
              && Get(sent[i], "method") == Get(options, "method")
  {
    var timeout, verb := TimeoutOf(defaultTimeout, options), Get(options, "method");
    var keep := (s: KeyValues) => Has(s, "timeout") && Get(s, "timeout") == timeout && Get(s, "method") == verb;
    PrepareFacts(defaultTimeout, origin, options);
    forall o {:trigger prepare(o)} | RetriesNumeric(o) && keep(o) ensures keep(prepare(o)) {
      PrepareFacts(defaultTimeout, origin, o);
    }
    Retry.EveryAttempt(maxRetries, prepare, RetriesNumeric, RetriesOf, RetryableReply, options, net, 0, keep);
  }

  /** Every attempt targets the same URL, the origin plus the first path,
      and keeps that path, when it is truthy. */
  lemma SameTarget(maxRetries: int, prepare: KeyValues -> KeyValues, defaultTimeout: Value, origin: string,
                   options: KeyValues, net: nat -> Reply)
    requires Prepares(prepare, defaultTimeout, origin) && RetriesNumeric(options)
    requires Truthy(PathOf(options))
    ensures var sent := Retry.Attempts(maxRetries, prepare, RetriesNumeric, RetriesOf, RetryableReply, options, net, 0).1;
            forall i :: 0 <= i < |sent| ==>
              Get(sent[i], "url") == Str(TargetUrl(origin, PathOf(options)))
              && Get(sent[i], "originalUrl") == PathOf(options)
  {
    var path := PathOf(options);
    var keep := (s: KeyValues) => Get(s, "originalUrl") == path && Get(s, "url") == Str(TargetUrl(origin, path));
    PrepareFacts(defaultTimeout, origin, options);
    forall o {:trigger prepare(o)} | RetriesNumeric(o) && keep(o) ensures keep(prepare(o)) {
      PrepareFacts(defaultTimeout, origin, o);
    }
    Retry.EveryAttempt(maxRetries, prepare, RetriesNumeric, RetriesOf, RetryableReply, options, net, 0, keep);
  }

  /** A falsy first path is not kept: `originalUrl` then takes the rebuilt
      URL, so a resubmission targets the origin twice over. */
  lemma EmptyPathDrifts(maxRetries: int, prepare: KeyValues -> KeyValues, defaultTimeout: Value, origin: string,
                        options: KeyValues, net: nat -> Reply)
    requires Prepares(prepare, defaultTimeout, origin) && RetriesNumeric(options)
    requires !Truthy(PathOf(options))
    requires Retryable(net(0).err) && maxRetries >= RetriesOf(options) + 1
    ensures var sent := Retry.Attempts(maxRetries, prepare, RetriesNumeric, RetriesOf, RetryableReply, options, net, 0).1;
            |sent| >= 2
            && Get(sent[0], "url") == Str(TargetUrl(origin, PathOf(options)))
            && Get(sent[1], "url") == Str(TargetUrl(origin, Str(TargetUrl(origin, PathOf(options)))))
            && Get(sent[1], "url") != Get(sent[0], "url")
  {
    assert Retry.Resubmits(maxRetries, RetriesOf, RetryableReply, options, net, 0);
    Retry.SecondAttempt(maxRetries, prepare, RetriesNumeric, RetriesOf, RetryableReply, options, net, 0);
    PathDrift(defaultTimeout, origin, options);
  }

  /** Two preparations from a falsy path: the second aims at the first URL. */
  lemma PathDrift(defaultTimeout: Value, origin: string, options: KeyValues)
    requires RetriesNumeric(options)
    requires !Truthy(PathOf(options))
    ensures var first := TargetUrl(origin, PathOf(options));
            var ro := Prepare(defaultTimeout, origin, options);
            Get(ro, "url") == Str(first)
            && Get(Prepare(defaultTimeout, origin, ro), "url") == Str(TargetUrl(origin, Str(first)))
            && TargetUrl(origin, Str(first)) != first
  {
    var ro := Prepare(defaultTimeout, origin, options);
    PrepareFacts(defaultTimeout, origin, options);
    PrepareFacts(defaultTimeout, origin, ro);
    var first := TargetUrl(origin, PathOf(options));
    assert PathOf(ro) == Str(first);
    assert |TargetUrl(origin, Str(first))| > |first|;
  }

  /** `post` sends `method: 'POST'` on every attempt, whatever the caller's
      options held. */
  lemma PostOnEveryAttempt(maxRetries: int, prepare: KeyValues -> KeyValues, defaultTimeout: Value, origin: string,
                           options: KeyValues, net: nat -> Reply)
    requires Prepares(prepare, defaultTimeout, origin) && RetriesNumeric(options)
    ensures RetriesNumeric(Set(options, "method", Str("POST")))
    ensures var sent := Retry.Attempts(maxRetries, prepare, RetriesNumeric, RetriesOf, RetryableReply, Set(options, "method", Str("POST")), net, 0).1;
            forall i :: 0 <= i < |sent| ==> Get(sent[i], "method") == Str("POST")
  {
    var posted := Set(options, "method", Str("POST"));
    assert Get(posted, "retries") == Get(options, "retries");
    KeptOnEveryAttempt(maxRetries, prepare, defaultTimeout, origin, posted, net);
  }
}
