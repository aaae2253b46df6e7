# fastapi-etag: the ETag decision, in Dafny

This project models the conditional-caching core of `fastapi-etag`: for one
request, given what the route's token generator returned and the request's
`If-None-Match` header, what the server decides — answer `304 Not Modified`
without running the endpoint, or run it and tag the response with an `etag`
header. The library offers the decision in two shapes, and both are modelled:

- the `Etag` dependency (`fastapi_etag/dependency.py`), which signals a cache
  hit by raising `CacheHit` and lets `etag_exception_handler` turn it into a
  304. Here the exception is the `CacheHit` case of the `Outcome` sum type
  returned by `Dependency.Call`;
- the route class (`fastapi_etag/route.py`), whose `Registry` maps an endpoint
  to a `(generator, weak)` pair and whose `custom_handler` (`Route.Handle`)
  answers the 304 inline.

Modules: `Wrappers` (Option, Result), `Http` (requests, responses, header
maps with `dict.update` semantics), `Conditional` (truthiness, weak
normalisation, `is_modified`, shared by both shapes since the two files
implement them identically), `Dependency`, `Route`, `Agreement` (the two
shapes agree; the registry after a run of registrations) and `Scenarios`
(the example apps and their tests as concrete lemmas).

Modelling choices:

- A token is an `Option<string>`; `Truthy` is Python truthiness, so `None`
  and `""` both mean "no token".
- A generator is an opaque value of type `G`; what it returns (after
  awaiting it, if it is asynchronous) for a request is the parameter
  `run: (G, Request) -> Option<string>`. The original handler's response is
  likewise a parameter of `Route.Handle`.
- Header maps are Dafny maps with exact key comparison; `dict.update` and
  `headers.update` are right-biased map union (`Http.Update`).
- The caller's `extra_headers` cannot be changed by a call: the model's
  values are immutable, and `Dependency.ExtraOf` is the fresh copy.

The model follows the code, including where it departs from RFC 7232 or
from what a reader might expect:

- A strong token is served verbatim, without the surrounding quotes that
  section 2.3 of RFC 7232 puts around an entity tag (`Conditional.Normalize`,
  `Conditional.StrongQuotedNeverMatches`).
- Only `If-None-Match` is consulted, as one value compared by exact string
  equality: no `If-Match`, no 412, no `*`, no comma-separated list, and not
  the weak comparison of section 2.3.2 of RFC 7232.
- A request to an endpoint that was never registered with the route class
  fails (unpacking `None`), it does not pass through (`Route.Handle`).
- On a name clash the computed `etag` wins over an extra header of the same
  name (`Dependency.Call`).

## Model

| member | source | states |
|---|---|---|
| Conditional.Served | fastapi_etag/dependency.py:35-36 | the f-string `W/"{etag}"` (also route.py:45): with weak on, the value is `W/"`, the token, a closing quote; with weak off, the token itself |
| Conditional.Normalize | fastapi_etag/dependency.py:34-36 | a served token is truthy exactly when the generated one is; unless the token is truthy and weak is on, it passes through verbatim (a strong token unquoted, `None` and `""` unchanged) |
| Conditional.NormalizeWeakShape | fastapi_etag/dependency.py:34-37 | with weak on, a non-empty token T is served as exactly `W/"T"`: prefix `W/"`, then T, then a closing quote, four characters longer than T |
| Conditional.UnweakNormalize | fastapi_etag/dependency.py:35-36 | stripping `W/"…"` from a weakly served token recovers the token (round trip) |
| Conditional.NormalizeInjective | fastapi_etag/route.py:44-45 | for one weak setting, two different truthy tokens are never served as the same etag |
| Conditional.IsModified | fastapi_etag/dependency.py:21-25 | not modified exactly when the token is truthy and the `If-None-Match` value equals it; an absent or empty header always means modified |
| Conditional.StrongQuotedNeverMatches | fastapi_etag/dependency.py:34-38 | a strong token T is never matched by a client that sends it quoted as `"T"` |
| Http.Update | fastapi_etag/dependency.py:37-40 | `update` keeps every key of both maps, the new map's value wins on a shared key, other entries are unchanged |
| Dependency.Call | fastapi_etag/dependency.py:27-41 | 304 exactly when the token is truthy and `If-None-Match` equals the served etag; a truthy token sets `etag` on both paths, over any extra `etag`; every other extra header is kept on both paths; the 304 carries only extra headers and `etag`; pass-through keeps the response's other headers, adds no header but the extra ones and (for a truthy token) `etag`, and returns the served etag or the falsy token itself; a falsy token never short-circuits |
| Dependency.ExtraOf | fastapi_etag/dependency.py:33 | `dict(self.extra_headers or {})`: the configured extra headers, or an empty map when none are configured |
| Dependency.ExceptionHandler | fastapi_etag/dependency.py:44-45 | a cache hit becomes a 304 with an empty body and the hit's headers |
| Dependency.FalsyTokenPassesThrough | fastapi_etag/dependency.py:33-41 | a `None` or empty token never short-circuits: the response gets the extra headers merged and the token is returned as is |
| Dependency.CacheHitResponse | fastapi_etag/dependency.py:37-45 | the 304 sent for a hit has an empty body and the extra headers with `etag` set to the served token |
| Dependency.DecisionIgnoresHeaders | fastapi_etag/dependency.py:33-39 | whether a request gets a 304 depends neither on the extra headers nor on the response's existing headers |
| Route.Get | fastapi_etag/route.py:24-25 | `get` returns the stored pair for a registered endpoint and `None` otherwise |
| Route.Add | fastapi_etag/route.py:17-22 | the decorator returns the function unchanged, stores `(gen, weak)` under it (weak defaults to true, re-adding overwrites) and leaves every other endpoint's entry alone |
| Route.RegisterAllGet | fastapi_etag/route.py:19 | after a sequence of registrations an endpoint holds its last registered pair, and an endpoint the sequence never names keeps its prior entry |
| Route.MakeRouteClass | fastapi_etag/route.py:68-74 | the route class uses the supplied registry, or a fresh `Registry()` (route.py:14-15) with no entry for any endpoint when none is given |
| Route.RouteAdd | fastapi_etag/route.py:63-65 | the class-level `add` registers in the class's registry with the same guarantees as `Registry.add` |
| Route.Handle | fastapi_etag/route.py:34-53 | unregistered endpoint fails; a falsy generator returns the handler's response untouched; otherwise the handler is skipped exactly when `If-None-Match` equals the served token, giving an empty 304 whose only header is `etag`; when invoked the handler's status, body and other headers are kept; `etag` is set to the served value exactly when the token is truthy |
| Agreement.IntegrationsAgree | fastapi_etag/route.py:44-61 | with the same generator and weak flag and no extra headers, the dependency and the route class make the same 304 decision, send the identical 304, and serve the same etag |
| Agreement.UnregisteredEndpointFails | fastapi_etag/route.py:35-36 | an endpoint that no registration names is rejected with an error, not passed through |
| Agreement.LastRegistrationDecides | fastapi_etag/route.py:35-46 | the route decides with the generator and weak flag of the endpoint's last registration |
| Scenarios.HelloEtag | fastapi_etag/exampleclass.py:13-17 | the example generator yields `etagfor<name>`, and `None` when the path has no `name` or an empty one |
| Scenarios.ProducesEtag | tests/test_example.py:21-25 | a plain GET of `/hello/foo` proceeds tagged `W/"etagforfoo"` |
| Scenarios.Produces304 | tests/test_example.py:28-32 | sending `W/"etagforfoo"` back yields a 304 with an empty body whose only header is that etag |
| Scenarios.WrongEtagProduces200 | tests/test_example.py:35-39 | any `If-None-Match` value other than `W/"etagforfoo"` (the test's `not-the-correct-etag`, or none) proceeds, still tagged `W/"etagforfoo"` |
| Scenarios.RouteClassProduces304 | fastapi_etag/exampleclass.py:7-23 | an endpoint registered through `EtagRoute.add` is returned unchanged and answers a matching request with an empty 304 without running |

## Left out

- Sync/async generator dispatch (`iscoroutinefunction`, `await`): the generator's result is the input `run`.
- Exceptions raised by a generator: they propagate to the framework; `run` is total.
- FastAPI/Starlette plumbing: `APIRoute` subclassing and `super().get_route_handler()`, `Depends`, the `HTTPException` base of `CacheHit`, and `add_exception_handler` (fastapi_etag/dependency.py:48-49), which are calls into framework code not shown.
- How FastAPI copies the dependency's response headers onto the endpoint's response: `Dependency.Call` stops at the headers of the response object it is given.
- Headers Starlette's `Response` adds by itself (`content-length`, `content-type`), case-insensitive header names, and header order.
- A registry shared by several route classes and mutated after they were made: the model holds registries by value.
- Tokens of a type other than `str`, which the f-string would format.
- `fastapi_etag/types.py` (a type alias only) and `fastapi_etag/example.py`, which is demo wiring; its generator differs from `Scenarios.HelloEtag` (modelled on fastapi_etag/exampleclass.py) only when the `name` path parameter is missing or empty, which its route never produces.
- `If-Match`/412, `*` and list matching, RFC weak comparison: the code does not implement them.
- Concurrency: a call keeps no state apart from the registry filled at definition time.
