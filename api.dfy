/** The delivery client (`API` actor): its configuration, the request headers, and the
    POST-with-retry policy over a scripted network. */
module ApiClient {
  import opened Wrappers
  import opened Maps
  import opened Json

  type Bytes = seq<bv8>

  const DefaultMaxRetries: int := 3
  /** 0.5 seconds, kept in whole milliseconds. */
  const DefaultInitialRetryDelayMs: nat := 500
  const ContentTypeHeader: string := "Content-Type"
  const JsonMediaType: string := "application/json"

  /** `API.Config`; the initial retry delay is in milliseconds. */
  datatype Config = Config(
    baseUrl: string,
    defaultHeaders: Option<StringMap>,
    maxRetries: Option<int>,
    initialRetryDelayMs: Option<nat>)

  /** The header set `init(config:)` and `updateConfig` store: the given defaults (or none),
      with Content-Type forced to JSON. */
  function ConfiguredHeaders(defaults: Option<StringMap>): (h: StringMap)
    ensures h.Keys == defaults.GetOr(map[]).Keys + {ContentTypeHeader}
    ensures h[ContentTypeHeader] == JsonMediaType
    ensures forall k :: k in defaults.GetOr(map[]) && k != ContentTypeHeader ==> h[k] == defaults.GetOr(map[])[k]
  {
    defaults.GetOr(map[])[ContentTypeHeader := JsonMediaType]
  }

  /** What one `URLSession.data(for:)` call yields: a thrown transport error, a response
      that is not HTTP, or an HTTP status with its body. */
  datatype Outcome = TransportError | NonHttpResponse | HttpResponse(status: int, body: Bytes)

  datatype FetchError =
    | EncodingFailed      // JSONEncoder threw
    | InvalidUrl          // baseUrl + path is not a URL
    | InvalidResponse     // "HTTPError" code 0, "Invalid response"
    | HttpStatus(code: int)
    | TransportFailed     // the last transport error, once retries are used up

  datatype Request = Request(url: string, headers: StringMap, body: Json)

  /** The result of one `fetch`/`post`, with every request issued and every back-off delay
      slept (in milliseconds), in order. */
  datatype Exchange = Exchange(result: Result<Bytes, FetchError>, requests: seq<Request>, delays: seq<nat>)

  function Pow2(n: nat): (r: nat)
    ensures r >= 1
  {
    if n == 0 then 1 else 2 * Pow2(n - 1)
  }

  predicate Is2xx(status: int) {
    200 <= status <= 299
  }

  /** The verdict on an attempt that is not retried: a transport error once retries are used
      up, a non-HTTP response, a status outside 200...299, or a 2xx with its body. */
  function Final(o: Outcome): (r: Result<Bytes, FetchError>)
    ensures r.Success? <==> o.HttpResponse? && Is2xx(o.status)
    ensures r.Success? ==> r.value == o.body
    ensures o.HttpResponse? && !Is2xx(o.status) ==> r == Failure(HttpStatus(o.status))
    ensures o.NonHttpResponse? ==> r == Failure(InvalidResponse)
    ensures o.TransportError? ==> r == Failure(TransportFailed)
  {
    match o
    case TransportError => Failure(TransportFailed)
    case NonHttpResponse => Failure(InvalidResponse)
    case HttpResponse(status, body) => if Is2xx(status) then Success(body) else Failure(HttpStatus(status))
  }

  class Api {
    var baseUrl: string
    var headers: StringMap
    var maxRetries: int
    var initialRetryDelayMs: nat

    constructor (config: Config)
      ensures baseUrl == config.baseUrl
      ensures headers == ConfiguredHeaders(config.defaultHeaders)
      ensures maxRetries == config.maxRetries.GetOr(DefaultMaxRetries)
      ensures initialRetryDelayMs == config.initialRetryDelayMs.GetOr(DefaultInitialRetryDelayMs)
    {
      baseUrl := config.baseUrl;
      var h := config.defaultHeaders.GetOr(map[]);
      h := h[ContentTypeHeader := JsonMediaType];
      headers := h;
      maxRetries := config.maxRetries.GetOr(DefaultMaxRetries);
      initialRetryDelayMs := config.initialRetryDelayMs.GetOr(DefaultInitialRetryDelayMs);
    }

    /** Replaces every setting; calls made afterwards use the new ones. */
    method UpdateConfig(config: Config)
      modifies this
      ensures baseUrl == config.baseUrl
      ensures headers == ConfiguredHeaders(config.defaultHeaders)
      ensures maxRetries == config.maxRetries.GetOr(DefaultMaxRetries)
      ensures initialRetryDelayMs == config.initialRetryDelayMs.GetOr(DefaultInitialRetryDelayMs)
    {
      baseUrl := config.baseUrl;
      headers := config.defaultHeaders.GetOr(map[]);
      headers := headers[ContentTypeHeader := JsonMediaType];
      maxRetries := config.maxRetries.GetOr(DefaultMaxRetries);
      initialRetryDelayMs := config.initialRetryDelayMs.GetOr(DefaultInitialRetryDelayMs);
    }

    /** The request's header fields: the stored headers, then `setValue` for every per-call
        option, so an option replaces a stored header of the same name. */
    method RequestHeaders(options: StringMap) returns (h: StringMap)
      ensures h == Overlay(headers, options)
    {
      h := headers;
      var pending := options.Keys;
      assert Without(options, pending) == map[];
      while pending != {}
        invariant pending <= options.Keys
        invariant h == Overlay(headers, Without(options, pending))
        decreases pending
      {
        var k :| k in pending;
        OverlayStep(headers, options, pending, k);
        h := h[k := options[k]];
        pending := pending - {k};
      }
      assert Without(options, {}) == options;
    }

    /** How many more attempts the retry rule allows after `attempt`. */
    function RetriesLeft(attempt: nat): (n: nat)
      reads this
      ensures n > 0 <==> attempt < maxRetries
      ensures n > 0 ==> attempt + n == maxRetries
    {
      if attempt < maxRetries then maxRetries - attempt else 0
    }

    /** `post(url:data:options:attempt:)`. `encoded` is what JSONEncoder made of the data
        (None: it threw); `net(n)` is what the network does on attempt n. A thrown transport
        error is retried while attempt < maxRetries, after initialRetryDelay * 2^attempt;
        every other outcome is final. */
    function Post(url: string, encoded: Option<Json>, options: StringMap, net: nat -> Outcome, attempt: nat): (r: Exchange)
      reads this
      decreases RetriesLeft(attempt)
      ensures encoded.None? ==> r == Exchange(Failure(EncodingFailed), [], [])
      ensures encoded.Some? ==> 1 <= |r.requests| <= RetriesLeft(attempt) + 1 && |r.delays| == |r.requests| - 1
      ensures encoded.Some? ==> forall q :: q in r.requests ==> q == Request(url, Overlay(headers, options), encoded.value)
      ensures r.delays == Backoff(initialRetryDelayMs, attempt, |r.delays|)
      ensures forall n: nat :: attempt <= n < attempt + |r.delays| ==> net(n) == TransportError
    {
      if encoded.None? then Exchange(Failure(EncodingFailed), [], [])
      else
        var request := Request(url, Overlay(headers, options), encoded.value);
        match net(attempt)
        case NonHttpResponse => Exchange(Failure(InvalidResponse), [request], [])
        case HttpResponse(status, body) =>
          if Is2xx(status) then Exchange(Success(body), [request], [])
          else Exchange(Failure(HttpStatus(status)), [request], [])
        case TransportError =>
          if attempt < maxRetries then
            var delay := initialRetryDelayMs * Pow2(attempt);
            var rest := Post(url, encoded, options, net, attempt + 1);
            Exchange(rest.result, [request] + rest.requests, [delay] + rest.delays)
          else
            Exchange(Failure(TransportFailed), [request], [])
    }

    /** `fetch(path:data:options:)`: a URL guard, then `post` from attempt 0. */
    function Fetch(path: string, encoded: Option<Json>, options: StringMap, net: nat -> Outcome, validUrl: string -> bool): (r: Exchange)
      reads this
      ensures !validUrl(baseUrl + path) ==> r == Exchange(Failure(InvalidUrl), [], [])
      ensures |r.requests| <= (if maxRetries > 0 then maxRetries else 0) + 1
      ensures |r.requests| == 0 || |r.delays| == |r.requests| - 1
      ensures forall q :: q in r.requests ==> q.url == baseUrl + path
      ensures r.delays == Backoff(initialRetryDelayMs, 0, |r.delays|)
      ensures forall n: nat :: n < |r.delays| ==> net(n) == TransportError
    {
      if !validUrl(baseUrl + path) then Exchange(Failure(InvalidUrl), [], [])
      else Post(baseUrl + path, encoded, options, net, 0)
    }
  }

  /** The back-off delays slept before attempts `from + 1`, ..., `from + k`: d*2^from,
      d*2^(from+1), and so on. */
  function Backoff(d: nat, from: nat, k: nat): (s: seq<nat>)
    ensures |s| == k
    ensures k > 0 ==> s[0] == d * Pow2(from)
    decreases k
  {
    if k == 0 then [] else [d * Pow2(from)] + Backoff(d, from + 1, k - 1)
  }

  /** Each delay doubles the one before: the i-th one is d*2^(from+i). */
  lemma {:induction false} BackoffAt(d: nat, from: nat, k: nat, i: nat)
    requires i < k
    ensures Backoff(d, from, k)[i] == d * Pow2(from + i)
    decreases k
  {
    if i > 0 {
      BackoffAt(d, from + 1, k - 1, i - 1);
    }
  }

  /** The result of a post is the verdict on its last attempt, and that attempt was a
      transport error only if no retry was left. */
  lemma {:induction false} PostResult(api: Api, url: string, body: Json, options: StringMap,
                                      net: nat -> Outcome, attempt: nat)
    decreases api.RetriesLeft(attempt)
    ensures var r := api.Post(url, Some(body), options, net, attempt);
      && r.result == Final(net(attempt + |r.requests| - 1))
      && (net(attempt + |r.requests| - 1).TransportError? ==> |r.requests| == api.RetriesLeft(attempt) + 1)
  {
    if net(attempt).TransportError? && attempt < api.maxRetries {
      PostResult(api, url, body, options, net, attempt + 1);
      var rest := api.Post(url, Some(body), options, net, attempt + 1);
      assert attempt + |api.Post(url, Some(body), options, net, attempt).requests| - 1
          == attempt + 1 + |rest.requests| - 1;
    }
  }

  /** The delay slept after the i-th failed attempt of a fetch is initialRetryDelay * 2^i,
      and that attempt ended in a transport error. */
  lemma FetchDelayAt(api: Api, path: string, encoded: Option<Json>, options: StringMap,
                     net: nat -> Outcome, validUrl: string -> bool, i: nat)
    requires i < |api.Fetch(path, encoded, options, net, validUrl).delays|
    ensures api.Fetch(path, encoded, options, net, validUrl).delays[i] == api.initialRetryDelayMs * Pow2(i)
    ensures net(i) == TransportError
  {
    var r := api.Fetch(path, encoded, options, net, validUrl);
    BackoffAt(api.initialRetryDelayMs, 0, |r.delays|, i);
  }

  /** From attempt a, transport errors up to attempt k <= maxRetries and a 2xx at k: the post
      succeeds with that body after exactly k - a + 1 requests. */
  lemma {:induction false} PostSucceedsAfter(api: Api, url: string, body: Json, options: StringMap,
                                             net: nat -> Outcome, a: nat, k: nat)
    requires a <= k <= api.maxRetries
    requires forall n: nat :: a <= n < k ==> net(n) == TransportError
    requires net(k).HttpResponse? && Is2xx(net(k).status)
    decreases k - a
    ensures api.Post(url, Some(body), options, net, a).result == Success(net(k).body)
    ensures |api.Post(url, Some(body), options, net, a).requests| == k - a + 1
  {
    if a < k {
      assert net(a) == TransportError;
      PostSucceedsAfter(api, url, body, options, net, a + 1, k);
    }
  }

  /** k <= maxRetries transport errors followed by a 2xx: success after exactly k + 1
      requests, with the delays d*1, d*2, ..., d*2^(k-1) between them. */
  lemma TransientErrorsThenSuccess(api: Api, path: string, body: Json, options: StringMap,
                                   net: nat -> Outcome, validUrl: string -> bool, k: nat)
    requires validUrl(api.baseUrl + path) && k <= api.maxRetries
    requires forall n: nat :: n < k ==> net(n) == TransportError
    requires net(k).HttpResponse? && Is2xx(net(k).status)
    ensures api.Fetch(path, Some(body), options, net, validUrl).result == Success(net(k).body)
    ensures |api.Fetch(path, Some(body), options, net, validUrl).requests| == k + 1
    ensures api.Fetch(path, Some(body), options, net, validUrl).delays == Backoff(api.initialRetryDelayMs, 0, k)
  {
    PostSucceedsAfter(api, api.baseUrl + path, body, options, net, 0, k);
  }

  /** A network that always fails: max(maxRetries, 0) + 1 requests, the full back-off
      schedule between them, then the transport failure. */
  lemma AlwaysFailingNetwork(api: Api, path: string, body: Json, options: StringMap,
                             net: nat -> Outcome, validUrl: string -> bool)
    requires validUrl(api.baseUrl + path)
    requires forall n :: net(n) == TransportError
    ensures api.Fetch(path, Some(body), options, net, validUrl).result == Failure(TransportFailed)
    ensures |api.Fetch(path, Some(body), options, net, validUrl).requests| == api.RetriesLeft(0) + 1
    ensures api.Fetch(path, Some(body), options, net, validUrl).delays == Backoff(api.initialRetryDelayMs, 0, api.RetriesLeft(0))
  {
    PostResult(api, api.baseUrl + path, body, options, net, 0);
  }

  /** With the defaults (maxRetries = 3, 0.5 s): four requests, delays of 0.5 s, 1 s and 2 s,
      then a transport failure. */
  lemma ThreeRetriesThenGiveUp(api: Api, path: string, body: Json, options: StringMap,
                               net: nat -> Outcome, validUrl: string -> bool)
    requires validUrl(api.baseUrl + path)
    requires api.maxRetries == DefaultMaxRetries && api.initialRetryDelayMs == DefaultInitialRetryDelayMs
    requires forall n :: net(n) == TransportError
    ensures api.Fetch(path, Some(body), options, net, validUrl).result == Failure(TransportFailed)
    ensures |api.Fetch(path, Some(body), options, net, validUrl).requests| == 4
    ensures api.Fetch(path, Some(body), options, net, validUrl).delays == [500, 1000, 2000]
  {
    AlwaysFailingNetwork(api, path, body, options, net, validUrl);
    assert Pow2(1) == 2 && Pow2(2) == 4;
  }

  /** An answer on the first attempt (a non-HTTP response or any status) ends the call at
      once: one request, no delay, and the verdict on that answer. */
  lemma FirstAnswerIsFinal(api: Api, path: string, body: Json, options: StringMap,
                           net: nat -> Outcome, validUrl: string -> bool)
    requires validUrl(api.baseUrl + path)
    requires !net(0).TransportError?
    ensures api.Fetch(path, Some(body), options, net, validUrl).result == Final(net(0))
    ensures |api.Fetch(path, Some(body), options, net, validUrl).requests| == 1
    ensures api.Fetch(path, Some(body), options, net, validUrl).delays == []
  {
  }

  /** A non-2xx status on the first attempt: failure carrying the status, without retry. */
  lemma HttpErrorIsFinal(api: Api, path: string, body: Json, options: StringMap,
                         net: nat -> Outcome, validUrl: string -> bool)
    requires validUrl(api.baseUrl + path)
    requires net(0).HttpResponse? && !Is2xx(net(0).status)
    ensures api.Fetch(path, Some(body), options, net, validUrl).result == Failure(HttpStatus(net(0).status))
    ensures |api.Fetch(path, Some(body), options, net, validUrl).requests| == 1
  {
    FirstAnswerIsFinal(api, path, body, options, net, validUrl);
  }
}
