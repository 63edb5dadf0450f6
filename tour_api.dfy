/**
 * The tourism API client: the common parameters, the query string built from
 * them and the call's own parameters, the retry loop with exponential backoff,
 * the normalisation of a response and the mapping of failures to
 * `TourApiError`, and the argument defaults of the list, search and detail
 * requests. The network is an oracle: for a request and an attempt number it
 * says what came back.
 */
module TourApi {
  import opened Wrappers
  import opened Text
  import opened TourTypes
  import Filters
  import Seqs

  /** `TourApiError`: a message and, for HTTP failures and timeouts, a status code. */
  datatype ApiError = TourApiError(message: string, statusCode: Option<int>)

  /** A value thrown by the platform (`fetch`, JSON decoding): an `Error` with its `name` and `message`, or a value that is not an `Error`. */
  datatype Fault = ErrorValue(name: string, message: string) | NonError

  /** What the `catch` of `fetchTourApi` receives: a `TourApiError` the try block raised itself, or a platform fault. */
  datatype Thrown = Raised(error: ApiError) | Foreign(fault: Fault)

  // ---------------------------------------------------------------------------
  // Common parameters

  /** The two environment variables that may hold the service key. */
  datatype Env = Env(tourApiKey: Option<string>, publicTourApiKey: Option<string>)

  function KeyVariable(isServerSide: bool): string {
    if isServerSide then "TOUR_API_KEY" else "NEXT_PUBLIC_TOUR_API_KEY"
  }

  /** The server reads `TOUR_API_KEY`, the browser `NEXT_PUBLIC_TOUR_API_KEY`. */
  function ServiceKey(env: Env, isServerSide: bool): Option<string> {
    if isServerSide then env.tourApiKey else env.publicTourApiKey
  }

  function MissingKeyError(isServerSide: bool): ApiError {
    TourApiError("Tour API key is missing. Please check " + KeyVariable(isServerSide) + " environment variable.", None)
  }

  /** A parameter value of a call: a string, a number, or `undefined`. */
  datatype QueryValue = Str(s: string) | Num(n: int) | Undefined

  /** An object's entries in insertion order, which is the order `Object.entries` lists them in. */
  type Params = seq<(string, QueryValue)>

  /** The value stored under `key`, if any (the first entry with that key). */
  function Lookup<V>(entries: seq<(string, V)>, key: string): (r: Option<V>)
    ensures r.None? <==> forall i :: 0 <= i < |entries| ==> entries[i].0 != key
    ensures r.Some? ==> exists i :: 0 <= i < |entries| && entries[i] == (key, r.value)
    decreases |entries|
  {
    if entries == [] then None
    else if entries[0].0 == key then Some(entries[0].1)
    else Lookup(entries[1..], key)
  }

  /** No key occurs twice, as in an object. */
  predicate DistinctKeys<V>(entries: seq<(string, V)>) {
    forall i, j :: 0 <= i < j < |entries| ==> entries[i].0 != entries[j].0
  }

  /** An object is a first entry whose key the rest does not have, followed by an object. */
  lemma DistinctUnfold<V>(entries: seq<(string, V)>)
    requires entries != []
    ensures DistinctKeys(entries) <==> Lookup(entries[1..], entries[0].0).None? && DistinctKeys(entries[1..])
  {
    if Lookup(entries[1..], entries[0].0).None? && DistinctKeys(entries[1..]) {
      forall i, j | 0 <= i < j < |entries|
        ensures entries[i].0 != entries[j].0
      {
        if i > 0 {
          assert entries[i].0 == entries[1..][i - 1].0 && entries[j].0 == entries[1..][j - 1].0;
        } else {
          assert entries[j].0 == entries[1..][j - 1].0;
        }
      }
    }
    if DistinctKeys(entries) {
      forall i, j | 0 <= i < j < |entries[1..]|
        ensures entries[1..][i].0 != entries[1..][j].0
      {
        assert entries[1..][i] == entries[i + 1] && entries[1..][j] == entries[j + 1];
      }
    }
  }

  /** In an object, the entry at index `i` is what its key looks up. */
  lemma LookupAt<V>(entries: seq<(string, V)>, i: int)
    requires DistinctKeys(entries) && 0 <= i < |entries|
    ensures Lookup(entries, entries[i].0) == Some(entries[i].1)
  {
    var r := Lookup(entries, entries[i].0);
    var j :| 0 <= j < |entries| && entries[j] == (entries[i].0, r.value);
    assert i == j;
  }

  /**
   * `getCommonParams`: a missing or empty key for the side is an error naming
   * the variable to set; otherwise the key and the three fixed parameters.
   */
  function CommonParams(env: Env, isServerSide: bool): (r: Result<Params, ApiError>)
    ensures r.Failure? <==> ServiceKey(env, isServerSide) == None || ServiceKey(env, isServerSide) == Some("")
    ensures r.Failure? ==> r.error == MissingKeyError(isServerSide)
    ensures r.Success? ==> DistinctKeys(r.value)
    ensures r.Success? ==> Lookup(r.value, "serviceKey") == Some(Str(ServiceKey(env, isServerSide).value))
  {
    var serviceKey := ServiceKey(env, isServerSide);
    if serviceKey == None || serviceKey.value == "" then Failure(MissingKeyError(isServerSide))
    else Success([("serviceKey", Str(serviceKey.value)), ("MobileOS", Str("ETC")), ("MobileApp", Str("MyTrip")), ("_type", Str("json"))])
  }

  // ---------------------------------------------------------------------------
  // `{ ...commonParams, ...params }`

  /** The entries of `base` in their order, each taking `over`'s value when `over` has the key. */
  function Refresh(base: Params, over: Params): (r: Params)
    ensures |r| == |base|
    ensures forall i :: 0 <= i < |r| ==> r[i].0 == base[i].0
    decreases |base|
  {
    if base == [] then []
    else [(base[0].0, Lookup(over, base[0].0).GetOr(base[0].1))] + Refresh(base[1..], over)
  }

  /** The entries of `over` whose key `base` does not have, in their order. */
  function Additions(base: Params, over: Params): (r: Params)
    ensures forall i :: 0 <= i < |r| ==> r[i] in over && Lookup(base, r[i].0).None?
    decreases |over|
  {
    if over == [] then []
    else (if Lookup(base, over[0].0).None? then [over[0]] else []) + Additions(base, over[1..])
  }

  /** Object spread: the keys of `base` keep their place, `over` wins on shared keys, and its new keys follow. */
  function Overlay(base: Params, over: Params): (r: Params)
    ensures |r| >= |base|
    ensures forall i :: 0 <= i < |base| ==> r[i].0 == base[i].0
    ensures forall i :: |base| <= i < |r| ==> r[i] in over && Lookup(base, r[i].0).None?
  {
    Refresh(base, over) + Additions(base, over)
  }

  lemma {:induction false} LookupAppend<V>(a: seq<(string, V)>, b: seq<(string, V)>, key: string)
    ensures Lookup(a + b, key) == if Lookup(a, key).Some? then Lookup(a, key) else Lookup(b, key)
    decreases |a|
  {
    if a != [] {
      assert (a + b)[1..] == a[1..] + b;
      LookupAppend(a[1..], b, key);
    } else {
      assert a + b == b;
    }
  }

  lemma {:induction false} RefreshLookup(base: Params, over: Params, key: string)
    ensures Lookup(Refresh(base, over), key) ==
      if Lookup(base, key).None? then None
      else if Lookup(over, key).Some? then Lookup(over, key) else Lookup(base, key)
    decreases |base|
  {
    if base != [] {
      RefreshLookup(base[1..], over, key);
    }
  }

  lemma {:induction false} AdditionsLookup(base: Params, over: Params, key: string)
    ensures Lookup(Additions(base, over), key) == if Lookup(base, key).None? then Lookup(over, key) else None
    decreases |over|
  {
    if over != [] {
      var head: Params := if Lookup(base, over[0].0).None? then [over[0]] else [];
      AdditionsLookup(base, over[1..], key);
      LookupAppend(head, Additions(base, over[1..]), key);
    }
  }

  /** What the spread stores under each key: `over`'s value when it has one (even `undefined`), otherwise `base`'s. */
  lemma OverlayLookup(base: Params, over: Params, key: string)
    ensures Lookup(Overlay(base, over), key) == if Lookup(over, key).Some? then Lookup(over, key) else Lookup(base, key)
  {
    LookupAppend(Refresh(base, over), Additions(base, over), key);
    RefreshLookup(base, over, key);
    AdditionsLookup(base, over, key);
  }

  lemma DistinctAppend<V>(a: seq<(string, V)>, b: seq<(string, V)>)
    requires DistinctKeys(a) && DistinctKeys(b)
    requires forall key :: Lookup(a, key).Some? ==> Lookup(b, key).None?
    ensures DistinctKeys(a + b)
  {
    forall i, j | 0 <= i < j < |a + b|
      ensures (a + b)[i].0 != (a + b)[j].0
    {
      if i < |a| && j >= |a| {
        assert Lookup(a, a[i].0).Some?;
        assert (a + b)[j] == b[j - |a|];
      }
    }
  }

  lemma RefreshDistinct(base: Params, over: Params)
    requires DistinctKeys(base)
    ensures DistinctKeys(Refresh(base, over))
  {
  }

  lemma {:induction false} AdditionsDistinct(base: Params, over: Params)
    requires DistinctKeys(over)
    ensures DistinctKeys(Additions(base, over))
    decreases |over|
  {
    if over != [] {
      var head: Params := if Lookup(base, over[0].0).None? then [over[0]] else [];
      var rest := Additions(base, over[1..]);
      DistinctUnfold(over);
      AdditionsDistinct(base, over[1..]);
      forall key | Lookup(head, key).Some?
        ensures Lookup(rest, key).None?
      {
        AdditionsLookup(base, over[1..], key);
      }
      DistinctAppend(head, rest);
    }
  }

  /** Spreading one object over another gives an object: no key twice. */
  lemma OverlayDistinct(base: Params, over: Params)
    requires DistinctKeys(base) && DistinctKeys(over)
    ensures DistinctKeys(Overlay(base, over))
  {
    RefreshDistinct(base, over);
    AdditionsDistinct(base, over);
    forall key | Lookup(Refresh(base, over), key).Some?
      ensures Lookup(Additions(base, over), key).None?
    {
      RefreshLookup(base, over, key);
      AdditionsLookup(base, over, key);
    }
    DistinctAppend(Refresh(base, over), Additions(base, over));
  }

  // ---------------------------------------------------------------------------
  // The query string

  /** `String(value)`. */
  function Stringify(v: QueryValue): string {
    match v
    case Str(s) => s
    case Num(n) => IntToString(n)
    case Undefined => "undefined"
  }

  predicate Defined(e: (string, QueryValue)) { e.1 != Undefined }

  function Send(e: (string, QueryValue)): (string, string) { (e.0, Stringify(e.1)) }

  /** The query entries of a parameter object: the defined entries, in order, each value stringified. */
  function QueryEntries(ps: Params): (r: seq<(string, string)>)
    ensures |r| <= |ps|
    ensures (forall i :: 0 <= i < |ps| ==> ps[i].1 != Undefined) ==> r == Seqs.Map(Send, ps)
  {
    AllDefinedKept(ps);
    Seqs.Map(Send, Seqs.Filter(Defined, ps))
  }

  lemma AllDefinedKept(ps: Params)
    ensures (forall i :: 0 <= i < |ps| ==> ps[i].1 != Undefined) ==> Seqs.Filter(Defined, ps) == ps
  {
    if forall i :: 0 <= i < |ps| ==> ps[i].1 != Undefined {
      Seqs.FilterAll(Defined, ps);
    }
  }

  /** What reaches the query string for a stored value: nothing for a missing or `undefined` one. */
  function SentValue(v: Option<QueryValue>): Option<string> {
    if v.Some? && v.value != Undefined then Some(Stringify(v.value)) else None
  }

  lemma QueryEntriesAppend(a: Params, b: Params)
    ensures QueryEntries(a + b) == QueryEntries(a) + QueryEntries(b)
  {
    Seqs.FilterAppend(Defined, a, b);
    Seqs.MapAppend(Send, Seqs.Filter(Defined, a), Seqs.Filter(Defined, b));
  }

  /** One more entry adds its stringified value to the query when it is defined. */
  lemma QueryEntriesSnoc(ps: Params, e: (string, QueryValue))
    ensures QueryEntries(ps + [e]) == QueryEntries(ps) + (if e.1 != Undefined then [(e.0, Stringify(e.1))] else [])
  {
    QueryEntriesAppend(ps, [e]);
    assert Seqs.Filter(Defined, [e]) == if e.1 != Undefined then [e] else [];
  }

  /** The `forEach` over `Object.entries(allParams)` that appends every defined value to the query. */
  method BuildQuery(allParams: Params) returns (query: seq<(string, string)>)
    ensures query == QueryEntries(allParams)
  {
    query := [];
    var i := 0;
    while i < |allParams|
      invariant 0 <= i <= |allParams|
      invariant query == QueryEntries(allParams[..i])
    {
      var (key, value) := allParams[i];
      assert allParams[..i + 1] == allParams[..i] + [allParams[i]];
      QueryEntriesSnoc(allParams[..i], allParams[i]);
      if value != Undefined {
        query := query + [(key, Stringify(value))];
      }
      assert query == QueryEntries(allParams[..i + 1]);
      i := i + 1;
    }
    assert allParams[..i] == allParams;
  }

  /** In an object, the query holds under each key exactly the stringified defined value stored there. */
  lemma {:induction false} QueryLookup(ps: Params, key: string)
    requires DistinctKeys(ps)
    ensures Lookup(QueryEntries(ps), key) == SentValue(Lookup(ps, key))
    decreases |ps|
  {
    if ps != [] {
      var head, tail := ps[0], ps[1..];
      assert ps == [head] + tail;
      DistinctUnfold(ps);
      QueryEntriesAppend([head], tail);
      QueryLookup(tail, key);
      LookupAppend(QueryEntries([head]), QueryEntries(tail), key);
    }
  }

  /**
   * The query of a call: under each key, the call's value if it has the key
   * (so an explicit `undefined` removes a common parameter), otherwise the
   * common value; undefined values are left out and the rest stringified.
   */
  lemma SentQuery(common: Params, params: Params, key: string)
    requires DistinctKeys(common) && DistinctKeys(params)
    ensures Lookup(QueryEntries(Overlay(common, params)), key) ==
      SentValue(if Lookup(params, key).Some? then Lookup(params, key) else Lookup(common, key))
  {
    OverlayDistinct(common, params);
    QueryLookup(Overlay(common, params), key);
    OverlayLookup(common, params, key);
  }

  // ---------------------------------------------------------------------------
  // Responses

  /** `body.items.item`: missing, a single record, or an array of records. */
  datatype Items<T> = Absent | One(item: T) | Many(list: seq<T>)

  datatype Body<T> = Body(resultCode: string, resultMsg: string, items: Items<T>, totalCount: Option<int>)

  /** An HTTP response; `json` is what `response.json()` and reading the expected fields give, or the fault they raise. */
  datatype Response<T> = Response(ok: bool, status: int, statusText: string, json: Result<Body<T>, Fault>)

  /** One round trip: the response, or the fault `fetch` rejected with (an abort on timeout, a network error). */
  datatype Exchange<T> = Answered(response: Response<T>) | Rejected(fault: Fault)

  datatype Page<T> = Page(data: seq<T>, totalCount: int)

  /** The records a successful body carries: none, the single record wrapped into a list, or the list. */
  function ItemList<T>(items: Items<T>): seq<T> {
    match items
    case Absent => []
    case One(item) => [item]
    case Many(list) => list
  }

  /** The `try` block of `fetchTourApi` after the request: the page it returns or what it throws. */
  function TryFetch<T>(ex: Exchange<T>): (r: Result<Page<T>, Thrown>)
    ensures r.Success? ==>
      ex.Answered? && ex.response.ok && ex.response.json.Success? &&
      ex.response.json.value.resultCode == "0000" && r.value.data == ItemList(ex.response.json.value.items)
    ensures r.Failure? && r.error.Raised? ==> ex.Answered?
  {
    match ex
    case Rejected(fault) => Failure(Foreign(fault))
    case Answered(r) =>
      if !r.ok then
        Failure(Raised(TourApiError("API request failed: " + IntToString(r.status) + " " + r.statusText, Some(r.status))))
      else
        match r.json
        case Failure(fault) => Failure(Foreign(fault))
        case Success(body) =>
          if body.resultCode != "0000" then Failure(Raised(TourApiError("API error: " + body.resultMsg, None)))
          else
            match body.items
            case Absent => Success(Page([], 0))
            case One(item) => Success(Page([item], body.totalCount.GetOr(0)))
            case Many(list) => Success(Page(list, body.totalCount.GetOr(0)))
  }

  /** An `Error` whose `name` is `AbortError`: what the timeout's `abort()` makes `fetch` reject with. */
  predicate IsAbort(f: Fault) {
    f.ErrorValue? && f.name == "AbortError"
  }

  /** `error instanceof Error ? error.message : 'Unknown error'`. */
  function FaultMessage(f: Fault): string {
    if f.ErrorValue? then f.message else "Unknown error"
  }

  /** The `catch` of `fetchTourApi`: its own errors pass unchanged, an abort is a timeout, anything else a network error. */
  function MapError(t: Thrown): (r: ApiError)
    ensures t.Raised? ==> r == t.error
    ensures t.Foreign? ==> r.statusCode == None || r == TourApiError("Request timeout", Some(408))
    ensures t.Foreign? && IsAbort(t.fault) ==> r == TourApiError("Request timeout", Some(408))
    ensures t.Foreign? && !IsAbort(t.fault) ==> r == TourApiError("Network error: " + FaultMessage(t.fault), None)
  {
    match t
    case Raised(e) => e
    case Foreign(ErrorValue(name, message)) =>
      if name == "AbortError" then TourApiError("Request timeout", Some(408))
      else TourApiError("Network error: " + message, None)
    case Foreign(NonError) => TourApiError("Network error: Unknown error", None)
  }

  /** What one exchange makes `fetchTourApi` return or throw. */
  function Outcome<T>(ex: Exchange<T>): (r: Result<Page<T>, ApiError>)
    ensures r.Success? <==>
      ex.Answered? && ex.response.ok && ex.response.json.Success? && ex.response.json.value.resultCode == "0000"
  {
    match TryFetch(ex)
    case Success(page) => Success(page)
    case Failure(t) => Failure(MapError(t))
  }

  /** The data of a successful exchange are its items; no items give an empty page with count 0. */
  lemma OutcomeSuccess<T>(ex: Exchange<T>)
    ensures Outcome(ex).Success? ==> Outcome(ex).value.data == ItemList(ex.response.json.value.items)
    ensures Outcome(ex).Success? && ex.response.json.value.items.Absent? ==> Outcome(ex).value == Page([], 0)
  {
  }

  /** The failures, one per cause, with their messages. */
  lemma OutcomeFailures<T>(ex: Exchange<T>)
    ensures ex.Answered? && !ex.response.ok ==>
      Outcome(ex) == Failure(TourApiError("API request failed: " + IntToString(ex.response.status) + " " + ex.response.statusText, Some(ex.response.status)))
    ensures ex.Answered? && ex.response.ok && ex.response.json.Success? && ex.response.json.value.resultCode != "0000" ==>
      Outcome(ex) == Failure(TourApiError("API error: " + ex.response.json.value.resultMsg, None))
    ensures ex.Rejected? && IsAbort(ex.fault) ==>
      Outcome(ex) == Failure(TourApiError("Request timeout", Some(408)))
    ensures ex.Rejected? && !IsAbort(ex.fault) ==>
      Outcome(ex) == Failure(TourApiError("Network error: " + FaultMessage(ex.fault), None))
    ensures ex.Answered? && ex.response.ok && ex.response.json.Failure? && IsAbort(ex.response.json.error) ==>
      Outcome(ex) == Failure(TourApiError("Request timeout", Some(408)))
    ensures ex.Answered? && ex.response.ok && ex.response.json.Failure? && !IsAbort(ex.response.json.error) ==>
      Outcome(ex) == Failure(TourApiError("Network error: " + FaultMessage(ex.response.json.error), None))
  {
  }

  /** A status code on a failure is either the timeout's 408 or the status of a response that was not OK. */
  lemma FailureStatus<T>(ex: Exchange<T>)
    requires Outcome(ex).Failure? && Outcome(ex).error.statusCode.Some?
    ensures Outcome(ex).error == TourApiError("Request timeout", Some(408)) ||
      (ex.Answered? && !ex.response.ok && Outcome(ex).error.statusCode == Some(ex.response.status))
  {
  }

  /** Passing an error through the `catch` a second time changes nothing. */
  lemma MapErrorStable(t: Thrown)
    ensures MapError(Raised(MapError(t))) == MapError(t)
  {
  }

  // ---------------------------------------------------------------------------
  // `withRetry`

  function Pow2(k: nat): nat {
    if k == 0 then 1 else 2 * Pow2(k - 1)
  }

  /** The waits before attempts `1 .. n`: `2^k * 1000` ms before attempt `k + 1`. */
  function Delays(n: nat): (r: seq<nat>)
    ensures |r| == n
    ensures forall k :: 0 <= k < n ==> r[k] == Pow2(k) * 1000
  {
    if n == 0 then [] else Delays(n - 1) + [Pow2(n - 1) * 1000]
  }

  /** `fn` is called `maxRetries` times at most, none when it is not positive. */
  function Budget(maxRetries: int): nat {
    if maxRetries > 0 then maxRetries else 0
  }

  /** The first of the attempts `0 .. n - 1` that succeeds, if one does. */
  function FirstSuccess<T, E>(fn: nat -> Result<T, E>, n: nat): (r: Option<nat>)
    ensures r.Some? ==> r.value < n && fn(r.value).Success? && forall j :: 0 <= j < r.value ==> fn(j).Failure?
    ensures r.None? ==> forall j :: 0 <= j < n ==> fn(j).Failure?
    decreases n
  {
    if n == 0 then None
    else
      match FirstSuccess(fn, n - 1)
      case Some(k) => Some(k)
      case None => if fn(n - 1).Success? then Some(n - 1) else None
  }

  /** How a call of `withRetry` ends (its value, the last error, or `None` for the `undefined` thrown when nothing ran) and how often it called `fn`. */
  datatype RetryRun<T, E> = RetryRun(result: Result<T, Option<E>>, calls: nat)

  /**
   * `withRetry(fn, maxRetries)`, with `fn(k)` the outcome of attempt `k`: the
   * first success is returned and nothing is called after it; when every
   * attempt fails, the last attempt's error is thrown.
   */
  function Retry<T, E>(fn: nat -> Result<T, E>, maxRetries: int): (r: RetryRun<T, E>)
    ensures r.calls <= Budget(maxRetries)
    ensures maxRetries > 0 ==> r.calls >= 1
    ensures forall j :: 0 <= j < r.calls - 1 ==> fn(j).Failure?
    ensures r.result.Success? <==> exists j :: 0 <= j < Budget(maxRetries) && fn(j).Success?
    ensures r.result.Success? ==> r.calls >= 1 && fn(r.calls - 1) == Success(r.result.value)
    ensures r.result.Failure? ==> r.calls == Budget(maxRetries)
    ensures r.result.Failure? ==> r.result.error == if r.calls == 0 then None else Some(fn(r.calls - 1).error)
  {
    var budget := Budget(maxRetries);
    match FirstSuccess(fn, budget)
    case Some(k) => RetryRun(Success(fn(k).value), k + 1)
    case None => RetryRun(Failure(if budget == 0 then None else Some(fn(budget - 1).error)), budget)
  }

  /** The waits of a run that called `fn` `calls` times: one before every call but the first. */
  function Backoff(calls: nat): (r: seq<nat>)
    ensures |r| == if calls == 0 then 0 else calls - 1
  {
    Delays(if calls == 0 then 0 else calls - 1)
  }

  /** The loop itself; `delays` records the waits in the order they happen. */
  method WithRetry<T, E>(fn: nat -> Result<T, E>, maxRetries: int) returns (r: Result<T, Option<E>>, calls: nat, delays: seq<nat>)
    ensures RetryRun(r, calls) == Retry(fn, maxRetries)
    ensures delays == Backoff(calls)
  {
    var lastError: Option<E> := None;
    delays := [];
    var attempt: nat := 0;
    while attempt < maxRetries
      invariant attempt <= Budget(maxRetries)
      invariant forall j :: 0 <= j < attempt ==> fn(j).Failure?
      invariant lastError == if attempt == 0 then None else Some(fn(attempt - 1).error)
      invariant delays == if attempt < maxRetries then Delays(attempt) else Backoff(attempt)
    {
      var outcome := fn(attempt);
      if outcome.Success? {
        assert FirstSuccess(fn, Budget(maxRetries)) == Some(attempt);
        return Success(outcome.value), attempt + 1, delays;
      }
      lastError := Some(outcome.error);
      if attempt < maxRetries - 1 {
        delays := delays + [Pow2(attempt) * 1000];
      }
      attempt := attempt + 1;
    }
    assert FirstSuccess(fn, Budget(maxRetries)).None?;
    r, calls := Failure(lastError), attempt;
  }

  /** Each wait doubles the previous one, starting at one second. */
  lemma BackoffDoubles(calls: nat)
    ensures calls >= 2 ==> Backoff(calls)[0] == 1000
    ensures forall k :: 0 <= k < |Backoff(calls)| - 1 ==> Backoff(calls)[k + 1] == 2 * Backoff(calls)[k]
  {
  }

  // ---------------------------------------------------------------------------
  // `fetchTourApi` and the exported requests

  /** `withRetry`'s default, which every request uses. */
  const MaxRetries := 3

  datatype Request = Request(endpoint: string, query: seq<(string, string)>)

  /** The request `fetchTourApi(endpoint, params)` sends, or the error `getCommonParams` throws before sending. */
  function Prepare(env: Env, isServerSide: bool, endpoint: string, params: Params): Result<Request, ApiError> {
    match CommonParams(env, isServerSide)
    case Failure(e) => Failure(e)
    case Success(common) => Success(Request(endpoint, QueryEntries(Overlay(common, params))))
  }

  /** Attempt `attempt` of `fetchTourApi`, with `net(request, attempt)` the exchange it has. */
  function FetchTourApi<T>(env: Env, isServerSide: bool, endpoint: string, params: Params,
                           net: (Request, nat) -> Exchange<T>, attempt: nat): (r: Result<Page<T>, ApiError>)
    ensures ServiceKey(env, isServerSide) == None || ServiceKey(env, isServerSide) == Some("") ==>
      r == Failure(MissingKeyError(isServerSide))
    ensures r.Success? ==> Prepare(env, isServerSide, endpoint, params).Success?
  {
    match Prepare(env, isServerSide, endpoint, params)
    case Failure(e) => Failure(e)
    case Success(request) => Outcome(net(request, attempt))
  }

  /** The result of a request and the number of attempts it made. */
  datatype ApiCall<X> = ApiCall(result: Result<X, ApiError>, attempts: nat)

  /** `withRetry(() => fetchTourApi(endpoint, params))`. */
  function Retried<T>(env: Env, isServerSide: bool, endpoint: string, params: Params,
                      net: (Request, nat) -> Exchange<T>): (r: ApiCall<Page<T>>)
    ensures 1 <= r.attempts <= MaxRetries
    ensures r.result.Failure? ==> r.attempts == MaxRetries
  {
    var run := Retry((attempt: nat) => FetchTourApi(env, isServerSide, endpoint, params, net, attempt), MaxRetries);
    ApiCall(if run.result.Success? then Success(run.result.value) else Failure(run.result.error.value), run.calls)
  }

  /** A missing key fails every attempt the same way, so a request gives up with that error after three attempts. */
  lemma MissingKeyRetried<T>(env: Env, isServerSide: bool, endpoint: string, params: Params, net: (Request, nat) -> Exchange<T>)
    requires ServiceKey(env, isServerSide) == None || ServiceKey(env, isServerSide) == Some("")
    ensures Retried(env, isServerSide, endpoint, params, net) == ApiCall(Failure(MissingKeyError(isServerSide)), MaxRetries)
  {
    var fn := (attempt: nat) => FetchTourApi(env, isServerSide, endpoint, params, net, attempt);
    assert forall j: nat :: fn(j) == Failure(MissingKeyError(isServerSide));
  }

  /** `options.x || d` on an optional number: `undefined` and `0` give the default. */
  function OrDefault(n: Option<int>, default: int): int {
    if n.Some? && n.value != 0 then n.value else default
  }

  /** An optional string argument, passed through as a possibly `undefined` parameter. */
  function Optional(s: Option<string>): QueryValue {
    if s.Some? then Str(s.value) else Undefined
  }

  datatype AreaListOptions = AreaListOptions(
    areaCode: Option<string>,
    contentTypeId: Option<string>,
    numOfRows: Option<int>,
    pageNo: Option<int>,
    arrange: Option<Filters.Arrange>)

  /** The parameters of `getAreaBasedList`: twenty rows, the first page and sorting by modification date unless given. */
  function AreaListParams(options: AreaListOptions): (ps: Params)
    ensures DistinctKeys(ps)
  {
    [("areaCode", Optional(options.areaCode)),
     ("contentTypeId", Optional(options.contentTypeId)),
     ("numOfRows", Num(OrDefault(options.numOfRows, 20))),
     ("pageNo", Num(OrDefault(options.pageNo, 1))),
     ("arrange", Str(Filters.ArrangeCode(options.arrange.GetOr(Filters.Modified))))]
  }

  /** `getAreaBasedList`; the data of a successful page are always a list, so they are the items. */
  function GetAreaBasedList(options: AreaListOptions, env: Env, isServerSide: bool,
                            net: (Request, nat) -> Exchange<TourItem>): (r: ApiCall<Page<TourItem>>)
    ensures 1 <= r.attempts <= MaxRetries
    ensures r.result.Failure? ==> r.attempts == MaxRetries
  {
    Retried(env, isServerSide, "/areaBasedList2", AreaListParams(options), net)
  }

  /** What the query of a prepared request holds under `key`: the call's value when it has the key, otherwise the common one. */
  lemma PreparedQuery(env: Env, isServerSide: bool, endpoint: string, params: Params, key: string)
    requires DistinctKeys(params) && Prepare(env, isServerSide, endpoint, params).Success?
    ensures Lookup(Prepare(env, isServerSide, endpoint, params).value.query, key) ==
      SentValue(if Lookup(params, key).Some? then Lookup(params, key) else Lookup(CommonParams(env, isServerSide).value, key))
  {
    SentQuery(CommonParams(env, isServerSide).value, params, key);
  }

  /** Where each argument of `getAreaBasedList` goes in its parameter object. */
  lemma AreaListLookups(options: AreaListOptions)
    ensures var ps := AreaListParams(options);
      Lookup(ps, "serviceKey") == None &&
      Lookup(ps, "areaCode") == Some(Optional(options.areaCode)) &&
      Lookup(ps, "contentTypeId") == Some(Optional(options.contentTypeId)) &&
      Lookup(ps, "numOfRows") == Some(Num(OrDefault(options.numOfRows, 20))) &&
      Lookup(ps, "pageNo") == Some(Num(OrDefault(options.pageNo, 1))) &&
      Lookup(ps, "arrange") == Some(Str(Filters.ArrangeCode(options.arrange.GetOr(Filters.Modified))))
  {
    var ps := AreaListParams(options);
    LookupAt(ps, 0);
    LookupAt(ps, 1);
    LookupAt(ps, 2);
    LookupAt(ps, 3);
    LookupAt(ps, 4);
  }

  /** The query of an area-based list request: the given area and type or nothing, and the defaulted numbers and sort code. */
  lemma AreaListSent(options: AreaListOptions, common: Params)
    requires DistinctKeys(common)
    ensures var q := QueryEntries(Overlay(common, AreaListParams(options)));
      Lookup(q, "serviceKey") == SentValue(Lookup(common, "serviceKey")) &&
      Lookup(q, "areaCode") == options.areaCode &&
      Lookup(q, "contentTypeId") == options.contentTypeId &&
      Lookup(q, "numOfRows") == Some(IntToString(OrDefault(options.numOfRows, 20))) &&
      Lookup(q, "pageNo") == Some(IntToString(OrDefault(options.pageNo, 1))) &&
      Lookup(q, "arrange") == Some(Filters.ArrangeCode(options.arrange.GetOr(Filters.Modified)))
  {
    var ps := AreaListParams(options);
    AreaListLookups(options);
    SentQuery(common, ps, "serviceKey");
    SentQuery(common, ps, "areaCode");
    SentQuery(common, ps, "contentTypeId");
    SentQuery(common, ps, "numOfRows");
    SentQuery(common, ps, "pageNo");
    SentQuery(common, ps, "arrange");
  }

  /** The request of `getAreaBasedList`, when the key is there: the key, then what the arguments say. */
  lemma AreaListQuery(options: AreaListOptions, env: Env, isServerSide: bool)
    requires Prepare(env, isServerSide, "/areaBasedList2", AreaListParams(options)).Success?
    ensures var q := Prepare(env, isServerSide, "/areaBasedList2", AreaListParams(options)).value.query;
      Lookup(q, "serviceKey") == ServiceKey(env, isServerSide) &&
      Lookup(q, "areaCode") == options.areaCode &&
      Lookup(q, "contentTypeId") == options.contentTypeId &&
      Lookup(q, "numOfRows") == Some(IntToString(OrDefault(options.numOfRows, 20))) &&
      Lookup(q, "pageNo") == Some(IntToString(OrDefault(options.pageNo, 1))) &&
      Lookup(q, "arrange") == Some(Filters.ArrangeCode(options.arrange.GetOr(Filters.Modified)))
  {
    AreaListSent(options, CommonParams(env, isServerSide).value);
  }

  datatype KeywordOptions = KeywordOptions(
    areaCode: Option<string>,
    contentTypeId: Option<string>,
    numOfRows: Option<int>,
    pageNo: Option<int>)

  function KeywordParams(keyword: string, options: KeywordOptions): (ps: Params)
    ensures DistinctKeys(ps)
  {
    [("keyword", Str(Trim(keyword))),
     ("areaCode", Optional(options.areaCode)),
     ("contentTypeId", Optional(options.contentTypeId)),
     ("numOfRows", Num(OrDefault(options.numOfRows, 20))),
     ("pageNo", Num(OrDefault(options.pageNo, 1)))]
  }

  /** `searchKeyword`: a blank keyword gives an empty page without any request. */
  function SearchKeyword(keyword: string, options: KeywordOptions, env: Env, isServerSide: bool,
                         net: (Request, nat) -> Exchange<TourItem>): (r: ApiCall<Page<TourItem>>)
    ensures Trim(keyword) == "" <==> r.attempts == 0
    ensures Trim(keyword) == "" ==> r.result == Success(Page([], 0))
  {
    if Trim(keyword) == "" then ApiCall(Success(Page([], 0)), 0)
    else Retried(env, isServerSide, "/searchKeyword2", KeywordParams(keyword, options), net)
  }

  lemma KeywordLookups(keyword: string, options: KeywordOptions)
    ensures var ps := KeywordParams(keyword, options);
      Lookup(ps, "serviceKey") == None &&
      Lookup(ps, "keyword") == Some(Str(Trim(keyword))) &&
      Lookup(ps, "areaCode") == Some(Optional(options.areaCode)) &&
      Lookup(ps, "contentTypeId") == Some(Optional(options.contentTypeId)) &&
      Lookup(ps, "numOfRows") == Some(Num(OrDefault(options.numOfRows, 20))) &&
      Lookup(ps, "pageNo") == Some(Num(OrDefault(options.pageNo, 1)))
  {
    var ps := KeywordParams(keyword, options);
    LookupAt(ps, 0);
    LookupAt(ps, 1);
    LookupAt(ps, 2);
    LookupAt(ps, 3);
    LookupAt(ps, 4);
  }

  /** A keyword search sends the trimmed keyword, and the same defaults as the area-based list. */
  lemma KeywordSent(keyword: string, options: KeywordOptions, common: Params)
    requires DistinctKeys(common)
    ensures var q := QueryEntries(Overlay(common, KeywordParams(keyword, options)));
      Lookup(q, "serviceKey") == SentValue(Lookup(common, "serviceKey")) &&
      Lookup(q, "keyword") == Some(Trim(keyword)) &&
      Lookup(q, "areaCode") == options.areaCode &&
      Lookup(q, "contentTypeId") == options.contentTypeId &&
      Lookup(q, "numOfRows") == Some(IntToString(OrDefault(options.numOfRows, 20))) &&
      Lookup(q, "pageNo") == Some(IntToString(OrDefault(options.pageNo, 1)))
  {
    var ps := KeywordParams(keyword, options);
    KeywordLookups(keyword, options);
    SentQuery(common, ps, "serviceKey");
    SentQuery(common, ps, "keyword");
    SentQuery(common, ps, "areaCode");
    SentQuery(common, ps, "contentTypeId");
    SentQuery(common, ps, "numOfRows");
    SentQuery(common, ps, "pageNo");
  }

  /** The request of a keyword search, when the key is there. */
  lemma KeywordQuery(keyword: string, options: KeywordOptions, env: Env, isServerSide: bool)
    requires Prepare(env, isServerSide, "/searchKeyword2", KeywordParams(keyword, options)).Success?
    ensures var q := Prepare(env, isServerSide, "/searchKeyword2", KeywordParams(keyword, options)).value.query;
      Lookup(q, "serviceKey") == ServiceKey(env, isServerSide) &&
      Lookup(q, "keyword") == Some(Trim(keyword)) &&
      Lookup(q, "areaCode") == options.areaCode &&
      Lookup(q, "contentTypeId") == options.contentTypeId &&
      Lookup(q, "numOfRows") == Some(IntToString(OrDefault(options.numOfRows, 20))) &&
      Lookup(q, "pageNo") == Some(IntToString(OrDefault(options.pageNo, 1)))
  {
    KeywordSent(keyword, options, CommonParams(env, isServerSide).value);
  }

  datatype YN = Y | N

  /** The seven switches of `getDetailCommon`; each one left out is `'Y'`. */
  datatype DetailOptions = DetailOptions(
    defaultYN: Option<YN>,
    firstImageYN: Option<YN>,
    areacodeYN: Option<YN>,
    catcodeYN: Option<YN>,
    addrinfoYN: Option<YN>,
    mapinfoYN: Option<YN>,
    overviewYN: Option<YN>)

  function Switch(o: Option<YN>): QueryValue {
    if o == Some(N) then Str("N") else Str("Y")
  }

  function DetailParams(contentId: string, options: DetailOptions): Params {
    [("contentId", Str(contentId)),
     ("defaultYN", Switch(options.defaultYN)),
     ("firstImageYN", Switch(options.firstImageYN)),
     ("areacodeYN", Switch(options.areacodeYN)),
     ("catcodeYN", Switch(options.catcodeYN)),
     ("addrinfoYN", Switch(options.addrinfoYN)),
     ("mapinfoYN", Switch(options.mapinfoYN)),
     ("overviewYN", Switch(options.overviewYN))]
  }

  function DetailNotFound(contentId: string): ApiError {
    TourApiError("Tour detail not found for contentId: " + contentId, None)
  }

  /** `getDetailCommon`: the first record of the page, or an error naming the id when there is none. */
  function GetDetailCommon(contentId: string, options: DetailOptions, env: Env, isServerSide: bool,
                           net: (Request, nat) -> Exchange<TourDetail>): (r: ApiCall<TourDetail>)
    ensures var call := Retried(env, isServerSide, "/detailCommon2", DetailParams(contentId, options), net);
      r.attempts == call.attempts &&
      (r.result.Success? <==> call.result.Success? && call.result.value.data != []) &&
      (r.result.Success? ==> r.result.value == call.result.value.data[0]) &&
      (call.result.Success? && call.result.value.data == [] ==> r.result == Failure(DetailNotFound(contentId))) &&
      (call.result.Failure? ==> r.result == Failure(call.result.error))
  {
    var call := Retried(env, isServerSide, "/detailCommon2", DetailParams(contentId, options), net);
    match call.result
    case Failure(e) => ApiCall(Failure(e), call.attempts)
    case Success(page) =>
      if page.data == [] then ApiCall(Failure(DetailNotFound(contentId)), call.attempts)
      else ApiCall(Success(page.data[0]), call.attempts)
  }

  /** The pet request of one attraction; all it sends besides the common parameters is the id. */
  function PetTourParams(contentId: string): Params {
    [("contentId", Str(contentId))]
  }

  /** `getDetailPetTour`: the first record of the page, `None` for an empty page or for any `TourApiError`. */
  function GetDetailPetTour(contentId: string, env: Env, isServerSide: bool,
                            net: (Request, nat) -> Exchange<PetTourInfo>): (r: ApiCall<Option<PetTourInfo>>)
    ensures var call := Retried(env, isServerSide, "/detailPetTour2", PetTourParams(contentId), net);
      r.attempts == call.attempts &&
      (r.result.Success? && r.result.value.Some? <==> call.result.Success? && call.result.value.data != []) &&
      (r.result.Success? && r.result.value.Some? ==> r.result.value.value == call.result.value.data[0])
  {
    var call := Retried(env, isServerSide, "/detailPetTour2", PetTourParams(contentId), net);
    match call.result
    case Failure(_) => ApiCall(Success(None), call.attempts)
    case Success(page) => ApiCall(Success(if page.data == [] then None else Some(page.data[0])), call.attempts)
  }

  /** Every failure the request can meet is a `TourApiError`, so `getDetailPetTour` never throws. */
  lemma PetTourNeverFails(contentId: string, env: Env, isServerSide: bool, net: (Request, nat) -> Exchange<PetTourInfo>)
    ensures GetDetailPetTour(contentId, env, isServerSide, net).result.Success?
  {
  }
}
