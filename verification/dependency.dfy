/** The `Etag` dependency: run before the endpoint, it either short-circuits
    the request with a 304 (raised as `CacheHit` in the original and turned
    into a response by `etag_exception_handler`) or tags the response and
    lets the endpoint run. The exception is replaced by the `Outcome` sum. */
module Dependency {
  import opened Wrappers
  import opened Http
  import opened Conditional

  /** A configured dependency. `etagGen` is opaque; what it returns for a
      request is supplied to `Call` as `run`. */
  datatype Etag<G> = Etag(etagGen: G, weak: bool := true, extraHeaders: Option<HeaderMap> := None)

  /** What one call decides: stop with a 304 carrying `headers`, or let the
      endpoint run with the response headers now `headers` and the call's
      return value `etag`. */
  datatype Outcome = CacheHit(headers: HeaderMap) | Proceed(headers: HeaderMap, etag: Option<string>)

  /** `dict(self.extra_headers or {})`: a fresh copy, empty for `None`. */
  function ExtraOf<G>(e: Etag<G>): (r: HeaderMap)
    ensures e.extraHeaders.Some? ==> r == e.extraHeaders.value
    ensures e.extraHeaders.None? ==> r == map[]
  {
    e.extraHeaders.GetOr(map[])
  }

  /** Every entry of `extra` other than `etag` appears in `h` unchanged. */
  ghost predicate KeepsExtra(h: HeaderMap, extra: HeaderMap) {
    forall k :: k in extra && k != EtagKey ==> k in h && h[k] == extra[k]
  }

  /** `Etag.__call__` for one request. `run` is the (awaited) result of the
      token generator; `response` holds the headers of the response object
      the dependency is handed. */
  function Call<G>(e: Etag<G>, run: (G, Request) -> Option<string>, req: Request, response: HeaderMap): (r: Outcome)
    // A 304 exactly when the token is truthy and the client sent the served etag verbatim.
    ensures r.CacheHit? <==> Truthy(run(e.etagGen, req)) && req.ifNoneMatch == Some(Served(run(e.etagGen, req).value, e.weak))
    // A truthy token is always served, overriding any extra header named `etag`.
    ensures Truthy(run(e.etagGen, req)) ==>
      EtagKey in r.headers && r.headers[EtagKey] == Served(run(e.etagGen, req).value, e.weak)
    // Extra headers reach both the 304 and the pass-through response.
    ensures KeepsExtra(r.headers, ExtraOf(e))
    // The 304 carries the extra headers and `etag`, nothing else.
    ensures r.CacheHit? ==> r.headers.Keys == ExtraOf(e).Keys + {EtagKey}
    // On pass-through, the handed response keeps whatever the dependency does not set.
    ensures r.Proceed? ==>
      && r.headers.Keys >= response.Keys
      && forall k :: k in response && k !in ExtraOf(e) && k != EtagKey ==> r.headers[k] == response[k]
    // On pass-through the return value is the served etag, or the falsy token itself.
    ensures r.Proceed? ==>
      r.etag == (if Truthy(run(e.etagGen, req)) then Some(Served(run(e.etagGen, req).value, e.weak)) else run(e.etagGen, req))
    // On pass-through nothing is added but the extra headers and, for a truthy token, `etag`.
    ensures r.Proceed? ==>
      r.headers.Keys == response.Keys + ExtraOf(e).Keys + (if Truthy(run(e.etagGen, req)) then {EtagKey} else {})
    // A falsy token never short-circuits.
    ensures !Truthy(run(e.etagGen, req)) ==> r.Proceed?
  {
    var token := run(e.etagGen, req);
    var headers := ExtraOf(e);
    if Truthy(token) then
      var etag := Normalize(token, e.weak);
      var tagged := Update(headers, map[EtagKey := etag.value]);
      if !IsModified(etag, req) then CacheHit(tagged)
      else Proceed(Update(response, tagged), etag)
    else
      Proceed(Update(response, headers), token)
  }

  /** `etag_exception_handler`: the literal response for a cache hit. */
  function ExceptionHandler(hit: Outcome): (r: Response)
    requires hit.CacheHit?
    ensures r.status == 304 && r.body == ""
    ensures r.headers == hit.headers
  {
    Response(304, "", hit.headers)
  }

  /** A falsy token (`None` or `""`) never short-circuits and never sets
      `etag` itself: the response gets exactly the extra headers merged in,
      and the call returns the token unchanged. */
  lemma FalsyTokenPassesThrough<G>(e: Etag<G>, run: (G, Request) -> Option<string>, req: Request, response: HeaderMap)
    requires !Truthy(run(e.etagGen, req))
    ensures Call(e, run, req, response) == Proceed(Update(response, ExtraOf(e)), run(e.etagGen, req))
  {
  }

  /** The 304 sent for a hit has an empty body and carries the extra headers
      with the served etag written over any extra `etag` entry. */
  lemma CacheHitResponse<G>(e: Etag<G>, run: (G, Request) -> Option<string>, req: Request, response: HeaderMap)
    requires Call(e, run, req, response).CacheHit?
    ensures var resp := ExceptionHandler(Call(e, run, req, response));
      && resp.status == 304 && resp.body == ""
      && resp.headers == ExtraOf(e)[EtagKey := Served(run(e.etagGen, req).value, e.weak)]
  {
  }

  /** Whether a request short-circuits does not depend on the extra headers
      or on the headers already on the response. */
  lemma DecisionIgnoresHeaders<G>(e: Etag<G>, extra: Option<HeaderMap>, run: (G, Request) -> Option<string>,
                                  req: Request, r1: HeaderMap, r2: HeaderMap)
    ensures Call(e, run, req, r1).CacheHit? == Call(e.(extraHeaders := extra), run, req, r2).CacheHit?
  {
  }
}
