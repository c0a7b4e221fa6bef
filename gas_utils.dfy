/** The helpers of src/gasUtils.ts around the script property service, the retrying
    fetch, the execution-time check, the debug switch and the error history. */
module GasUtils {
  import opened Common

  /** `Math.pow(2, k)` for a whole `k`. */
  function Pow2(k: nat): (r: nat)
    ensures r >= 1
  {
    if k == 0 then 1 else 2 * Pow2(k - 1)
  }

  /** `safeJsonParse(text, defaultValue)`: the parsed value, or the default where
      `JSON.parse` throws. */
  function SafeJsonParse<T>(codec: Codec<T>, text: string, defaultValue: T): T {
    match codec.decode(text)
    case None => defaultValue
    case Some(v) => v
  }

  /** What `safeJsonStringify` wrote, `safeJsonParse` reads back, whatever the default. */
  lemma SafeJsonRoundTrip<T(!new)>(codec: Codec<T>, x: T, defaultValue: T)
    requires Sound(codec)
    ensures SafeJsonParse(codec, codec.encode(x), defaultValue) == x
  {
    assert codec.decode(codec.encode(x)) == Some(x);
  }

  /** The key the error history is kept under. */
  const ErrorHistoryKey := "ERROR_HISTORY"

  /** The most entries the error history keeps. */
  const ErrorHistoryLimit := 10

  /** `errorHistory.unshift(entry)` then `splice(10)` when the result is longer. */
  function Newest<E>(entry: E, history: seq<E>): seq<E> {
    var h := [entry] + history;
    if |h| > ErrorHistoryLimit then h[..ErrorHistoryLimit] else h
  }

  /** The history keeps the new entry first, then the older entries in order, and never
      more than ten of them. */
  lemma NewestFacts<E>(entry: E, history: seq<E>)
    ensures 1 <= |Newest(entry, history)| <= ErrorHistoryLimit
    ensures Newest(entry, history)[0] == entry
    ensures Newest(entry, history)[1..] == history[..|Newest(entry, history)| - 1]
    ensures |Newest(entry, history)| == if |history| < ErrorHistoryLimit then |history| + 1 else ErrorHistoryLimit
  {
  }

  /** `Utilities.sleep(Math.pow(2, attempt) * 1000)` after each of the first `n` failed
      attempts, in order. */
  function Backoff(n: nat): seq<nat> {
    if n == 0 then [] else Backoff(n - 1) + [Pow2(n) * 1000]
  }

  /** The k-th pause (attempt k + 1) lasts 2^(k+1) seconds, so each pause doubles the
      previous one. */
  lemma {:induction false} BackoffFacts(n: nat)
    ensures |Backoff(n)| == n
    ensures forall k :: 0 <= k < n ==> Backoff(n)[k] == Pow2(k + 1) * 1000
    ensures forall k :: 0 < k < n ==> Backoff(n)[k] == 2 * Backoff(n)[k - 1]
  {
    if n > 0 {
      BackoffFacts(n - 1);
    }
  }

  /** Attempts 1 to `n`, each failed. */
  ghost predicate AllFail(fetch: nat -> Option<string>, n: int) {
    forall k :: 1 <= k <= n ==> fetch(k).None?
  }

  /** `fetchUrlSafely(url, options, maxRetries)`; `fetch(k)` is what attempt `k` of
      `UrlFetchApp.fetch` returns, `None` where it throws. The result is the response,
      how many attempts were made, and the sleeps in between. */
  method FetchUrlSafely(fetch: nat -> Option<string>, maxRetries: int)
      returns (r: Option<string>, attempts: nat, sleeps: seq<nat>)
    ensures attempts <= if maxRetries < 0 then 0 else maxRetries
    ensures r.Some? ==> 1 <= attempts && r == fetch(attempts) && AllFail(fetch, attempts - 1)
    ensures r.None? ==> attempts == (if maxRetries < 0 then 0 else maxRetries) && AllFail(fetch, maxRetries)
    ensures sleeps == Backoff(if attempts == 0 then 0 else attempts - 1)
  {
    attempts := 0;
    sleeps := [];
    var attempt := 1;
    while attempt <= maxRetries
      invariant 1 <= attempt && attempts == attempt - 1
      invariant maxRetries >= 0 ==> attempt <= maxRetries + 1
      invariant maxRetries < 0 ==> attempt == 1
      invariant AllFail(fetch, attempts)
      invariant sleeps == Backoff(if attempts < maxRetries || attempts == 0 then attempts else attempts - 1)
    {
      attempts := attempt;
      var response := fetch(attempt);
      if response.Some? {
        return response, attempts, sleeps;
      }
      if attempt < maxRetries {
        sleeps := sleeps + [Pow2(attempt) * 1000];
      }
      attempt := attempt + 1;
    }
    r := None;
  }

  /** `isExecutionTimeExceeded(startTime, maxMinutes)` at time `now`, all in
      milliseconds since the epoch; `maxMinutes` is 5 by default. */
  function IsExecutionTimeExceeded(now: int, startTime: int, maxMinutes: real): (r: bool)
    ensures r <==> (now - startTime) as real >= maxMinutes * 60000.0
  {
    (now - startTime) as real / (1000.0 * 60.0) >= maxMinutes
  }

  /** The script properties; `failing` stands for a property service that throws. */
  class ScriptProperties {
    var values: map<string, string>
    var failing: bool

    constructor(initial: map<string, string>, failing: bool)
      ensures values == initial && this.failing == failing
    {
      values := initial;
      this.failing := failing;
    }

    /** `getPropertySafely(key, defaultValue)`: the stored value, or the default when
        the key is missing, its value is empty, or the service throws. */
    function GetPropertySafely(key: string, defaultValue: string): (r: string)
      reads this
      ensures r == defaultValue || (key in values && r == values[key] != "")
      ensures !failing && key in values && values[key] != "" ==> r == values[key]
    {
      if failing || key !in values || values[key] == "" then defaultValue else values[key]
    }

    /** `setPropertySafely(key, value)`: true when the value was written. */
    method SetPropertySafely(key: string, value: string) returns (ok: bool)
      modifies this
      ensures ok == !failing && failing == old(failing)
      ensures values == if ok then old(values)[key := value] else old(values)
      ensures ok ==> forall d :: GetPropertySafely(key, d) == if value == "" then d else value
    {
      if failing {
        return false;
      }
      values := values[key := value];
      return true;
    }

    /** `setPropertiesSafely(properties)`: every pair is written, other keys are kept. */
    method SetPropertiesSafely(properties: map<string, string>) returns (ok: bool)
      modifies this
      ensures ok == !failing && failing == old(failing)
      ensures values == if ok then old(values) + properties else old(values)
    {
      if failing {
        return false;
      }
      values := values + properties;
      return true;
    }

    /** `deletePropertySafely(key)`: true when the key was deleted. */
    method DeletePropertySafely(key: string) returns (ok: bool)
      modifies this
      ensures ok == !failing && failing == old(failing)
      ensures values == if ok then old(values) - {key} else old(values)
      ensures ok ==> forall d :: GetPropertySafely(key, d) == d
    {
      if failing {
        return false;
      }
      values := values - {key};
      return true;
    }

    /** `debugLog(message)`: the line written to the console, present exactly when the
        `DEBUG_MODE` property is `true`. */
    function DebugLog(message: string): (r: Option<string>)
      reads this
      ensures r.Some? <==> !failing && DebugModeKey in values && values[DebugModeKey] == "true"
      ensures r.Some? ==> r.value == "[DEBUG] " + message
    {
      if GetPropertySafely(DebugModeKey, "false") == "true" then Some("[DEBUG] " + message) else None
    }

    /** The error history as `logError` reads it: an unreadable or absent history is
        empty. */
    function ErrorHistory<E>(codec: Codec<seq<E>>): seq<E>
      reads this
    {
      SafeJsonParse(codec, GetPropertySafely(ErrorHistoryKey, "[]"), [])
    }

    /** The saving part of `logError(functionName, error)`; `entry` is the error record. */
    method LogError<E>(codec: Codec<seq<E>>, entry: E)
      modifies this
      ensures failing == old(failing)
      ensures values == if failing then old(values)
        else old(values)[ErrorHistoryKey := codec.encode(Newest(entry, old(ErrorHistory(codec))))]
    {
      var errorHistory := SafeJsonParse(codec, GetPropertySafely(ErrorHistoryKey, "[]"), []);
      errorHistory := [entry] + errorHistory;
      if |errorHistory| > ErrorHistoryLimit {
        errorHistory := errorHistory[..ErrorHistoryLimit];
      }
      var _ := SetPropertySafely(ErrorHistoryKey, codec.encode(errorHistory));
    }
  }

  const DebugModeKey := "DEBUG_MODE"

  /** After `logError` the history reads back newest first: the new entry, then the
      previous history, cut to ten entries. */
  lemma LogErrorReadBack<E(!new)>(props: ScriptProperties, codec: Codec<seq<E>>, before: seq<E>, entry: E)
    requires Sound(codec) && !props.failing
    requires ErrorHistoryKey in props.values && props.values[ErrorHistoryKey] == codec.encode(Newest(entry, before))
    ensures props.ErrorHistory(codec) == Newest(entry, before)
    ensures |props.ErrorHistory(codec)| <= ErrorHistoryLimit && props.ErrorHistory(codec)[0] == entry
  {
    var h := Newest(entry, before);
    assert codec.decode(codec.encode(h)) == Some(h) && codec.encode(h) != "";
    NewestFacts(entry, before);
  }
}
