/**
 * `fetchWithRetry` (json-loader.js:202-233) and `fetchWithTranslations`
 * (json-loader.js:242-262) over an abstract network.
 *
 * The network is a function from a URL and a fetch's sequence number to what that
 * fetch gives: a response (status and, when the body parses as JSON, its value) or
 * a rejection.  Numbering the fetches lets the same URL answer differently on a
 * retry.  The waits between attempts are reported as a list of delays instead of
 * being slept.
 */
module Transport {
  import opened JsValue
  import opened Paths

  datatype Response = Response(status: int, body: Option<Value>)

  /** `response.ok`. */
  predicate IsOk(r: Response) {
    200 <= r.status <= 299
  }

  datatype FetchOutcome = Responded(response: Response) | NetworkFailure

  type Network = (string, nat) -> FetchOutcome

  /** What one attempt of `fetchWithRetry` makes of a fetch: a response to return, or an error to retry on. */
  function Attempt(o: FetchOutcome): (r: Result<Response>)
    ensures r.Ok? <==> o.Responded? && (IsOk(o.response) || o.response.status == 404)
    ensures r.Ok? ==> r.value == o.response
  {
    match o
    case NetworkFailure => Err(NetworkError)
    case Responded(resp) =>
      if IsOk(resp) || resp.status == 404 then Ok(resp)
      else Err(HttpError(resp.status))
  }

  /** Fetch number `k` of `url` ends in an error that `fetchWithRetry` retries on. */
  predicate Fails(net: Network, url: string, k: nat) {
    Attempt(net(url, k)).Err?
  }

  function Pow2(k: nat): (p: nat)
    ensures p >= 1
  {
    if k == 0 then 1 else 2 * Pow2(k - 1)
  }

  /** The wait before retry number `retryCount + 1` (json-loader.js:221). */
  function Delay(retryCount: nat): nat {
    Pow2(retryCount) * 1000
  }

  /** The outcome of a whole `fetchWithRetry`: its result, how many fetches it made, the waits in between. */
  datatype Fetched = Fetched(result: Result<Response>, attempts: nat, delays: seq<nat>)

  /**
   * `fetchWithRetry(url, retryCount, maxRetries)` whose first fetch has sequence
   * number `n`: a response to return ends it; an error is retried while
   * `retryCount < maxRetries` and rethrown once the retries are used up.
   */
  function Retry(net: Network, url: string, n: nat, retryCount: nat, maxRetries: nat): Fetched
    decreases if retryCount < maxRetries then maxRetries - retryCount else 0
  {
    match Attempt(net(url, n))
    case Ok(resp) => Fetched(Ok(resp), 1, [])
    case Err(e) =>
      if retryCount < maxRetries then
        var rest := Retry(net, url, n + 1, retryCount + 1, maxRetries);
        Fetched(rest.result, rest.attempts + 1, [Delay(retryCount)] + rest.delays)
      else Fetched(Err(e), 1, [])
  }

  /**
   * What `fetchWithRetry` promises: at least one and at most `maxRetries - retryCount + 1`
   * fetches; a wait of `2^k * 1000` ms before each retry; every fetch but the last
   * failed; the result is what the last fetch gave, an ok or 404 response being
   * returned as it is and a failure only once no retry is left.
   */
  lemma {:induction false} RetryFacts(net: Network, url: string, n: nat, retryCount: nat, maxRetries: nat)
    ensures var f := Retry(net, url, n, retryCount, maxRetries);
      && 1 <= f.attempts
      && (retryCount <= maxRetries ==> f.attempts <= maxRetries - retryCount + 1)
      && |f.delays| == f.attempts - 1
      && (forall i :: 0 <= i < |f.delays| ==> f.delays[i] == Delay(retryCount + i))
      && (forall k :: n <= k < n + f.attempts - 1 ==> Fails(net, url, k))
      && f.result == Attempt(net(url, n + f.attempts - 1))
      && (f.result.Err? ==> retryCount + f.attempts - 1 >= maxRetries)
    decreases if retryCount < maxRetries then maxRetries - retryCount else 0
  {
    if Attempt(net(url, n)).Err? && retryCount < maxRetries {
      RetryFacts(net, url, n + 1, retryCount + 1, maxRetries);
    }
  }

  /** The result of `fetchWithRetry` is what its last fetch gave, after at least one fetch. */
  lemma {:induction false} RetryResult(net: Network, url: string, n: nat, retryCount: nat, maxRetries: nat)
    ensures var f := Retry(net, url, n, retryCount, maxRetries);
      1 <= f.attempts && f.result == Attempt(net(url, n + f.attempts - 1))
    decreases if retryCount < maxRetries then maxRetries - retryCount else 0
  {
    if Attempt(net(url, n)).Err? && retryCount < maxRetries {
      RetryResult(net, url, n + 1, retryCount + 1, maxRetries);
    }
  }

  /** With the default three retries and every fetch failing, the waits are 1, 2 and 4 seconds. */
  lemma DefaultSchedule(net: Network, url: string, n: nat)
    requires forall k :: n <= k <= n + 3 ==> Fails(net, url, k)
    ensures var f := Retry(net, url, n, 0, 3);
      f.attempts == 4 && f.delays == [1000, 2000, 4000] && f.result == Attempt(net(url, n + 3))
  {
    assert Fails(net, url, n) && Fails(net, url, n + 1) && Fails(net, url, n + 2) && Fails(net, url, n + 3);
    assert Pow2(1) == 2 && Pow2(2) == 4;
  }

  /** The source's retries: a failed fetch with retries left waits, then calls itself with `retryCount + 1`. */
  method FetchWithRetry(net: Network, url: string, n: nat, retryCount: nat, maxRetries: nat)
    returns (result: Result<Response>, attempts: nat, delays: seq<nat>)
    ensures Fetched(result, attempts, delays) == Retry(net, url, n, retryCount, maxRetries)
    decreases if retryCount < maxRetries then maxRetries - retryCount else 0
  {
    var outcome := Attempt(net(url, n));
    if outcome.Ok? {
      return outcome, 1, [];
    }
    if retryCount < maxRetries {
      var delay := Delay(retryCount);
      var rest, restAttempts, restDelays := FetchWithRetry(net, url, n + 1, retryCount + 1, maxRetries);
      return rest, restAttempts + 1, [delay] + restDelays;
    }
    return outcome, 1, [];
  }

  /**
   * `fetchWithTranslations(path)`, the first fetch numbered `n`: the path loses any
   * locale segment; for a language other than "en" the localised path is tried first
   * and its ok response returned; otherwise (not ok, or "en") the base path is fetched.
   * An error from the localised fetch is not caught: it propagates with no fallback.
   */
  function FetchTranslated(net: Network, n: nat, lang: string, path: string): Fetched {
    var basePath := StripLocale(path);
    if lang != "en" then
      var first := Retry(net, Localize(basePath, lang), n, 0, 3);
      if first.result.Err? || IsOk(first.result.value) then first
      else
        var second := Retry(net, basePath, n + first.attempts, 0, 3);
        Fetched(second.result, first.attempts + second.attempts, first.delays + second.delays)
    else Retry(net, basePath, n, 0, 3)
  }

  /**
   * The base path is fetched only after the localised one answered with a status
   * that is not ok (a 404, since every other failure is retried and then thrown);
   * an ok localised response is final; a thrown localised fetch is final too.
   */
  lemma TranslatedFallback(net: Network, n: nat, lang: string, path: string)
    requires lang != "en"
    ensures var first := Retry(net, Localize(StripLocale(path), lang), n, 0, 3);
      var f := FetchTranslated(net, n, lang, path);
      && (first.result.Err? ==> f == first)
      && (first.result.Ok? && IsOk(first.result.value) ==> f == first)
      && (first.result.Ok? && !IsOk(first.result.value) ==>
            first.result.value.status == 404
            && f.result == Retry(net, StripLocale(path), n + first.attempts, 0, 3).result
            && f.attempts > first.attempts)
  {
    var first := Retry(net, Localize(StripLocale(path), lang), n, 0, 3);
    if first.result.Ok? && !IsOk(first.result.value) {
      NotFoundFallback(net, n, lang, path);
    }
  }

  lemma NotFoundFallback(net: Network, n: nat, lang: string, path: string)
    requires lang != "en"
    requires var first := Retry(net, Localize(StripLocale(path), lang), n, 0, 3);
      first.result.Ok? && !IsOk(first.result.value)
    ensures var first := Retry(net, Localize(StripLocale(path), lang), n, 0, 3);
      var f := FetchTranslated(net, n, lang, path);
      && first.result.value.status == 404
      && f.result == Retry(net, StripLocale(path), n + first.attempts, 0, 3).result
      && f.attempts > first.attempts
  {
    var first := Retry(net, Localize(StripLocale(path), lang), n, 0, 3);
    RetryResult(net, Localize(StripLocale(path), lang), n, 0, 3);
    RetryResult(net, StripLocale(path), n + first.attempts, 0, 3);
  }

  /** After a localised response that is not ok, the base path's fetch follows the localised attempts. */
  lemma FallbackFetched(net: Network, n: nat, lang: string, path: string, attempts: nat)
    requires lang != "en"
    requires var first := Retry(net, Localize(StripLocale(path), lang), n, 0, 3);
      first.result.Ok? && !IsOk(first.result.value) && first.attempts == attempts
    ensures var second := Retry(net, StripLocale(path), n + attempts, 0, 3);
      var f := FetchTranslated(net, n, lang, path);
      f.result == second.result && f.attempts == attempts + second.attempts
  {
  }

  /** For "en" only the base path is fetched, whatever locale segment the path carried. */
  lemma EnglishFetchesBase(net: Network, n: nat, path: string)
    ensures FetchTranslated(net, n, "en", path) == Retry(net, StripLocale(path), n, 0, 3)
  {
  }
}
