/** The route-class integration: a `Registry` maps an endpoint to its token
    generator and weak flag, and the route's handler consults it on every
    request, answering 304 inline or calling the original handler. */
module Route {
  import opened Wrappers
  import opened Http
  import opened Conditional

  /** What `Registry.add` stores for an endpoint. The generator may be falsy
      (`None`), in which case the route does no ETag work. */
  datatype Config<G> = Config(etagGen: Option<G>, weak: bool)

  /** `Registry.path_config`, keyed by endpoint identity. */
  datatype Registry<E, G> = Registry(pathConfig: map<E, Config<G>>)

  /** A fresh `Registry()`. */
  function EmptyRegistry<E, G>(): Registry<E, G> {
    Registry(map[])
  }

  /** `Registry.get`: the stored pair, `None` for an endpoint never added. */
  function Get<E, G>(r: Registry<E, G>, key: E): (c: Option<Config<G>>)
    ensures c.Some? <==> key in r.pathConfig
    ensures c.Some? ==> c.value == r.pathConfig[key]
  {
    if key in r.pathConfig then Some(r.pathConfig[key]) else None
  }

  /** `registry.add(etag_gen, weak)(func)`: stores the pair under `func`,
      replacing an earlier entry, and hands `func` back unchanged. */
  function Add<E(!new), G>(r: Registry<E, G>, etagGen: Option<G>, func: E, weak: bool := true): (res: (Registry<E, G>, E))
    ensures res.1 == func
    ensures Get(res.0, func) == Some(Config(etagGen, weak))
    ensures forall f :: f != func ==> Get(res.0, f) == Get(r, f)
  {
    (Registry(r.pathConfig[func := Config(etagGen, weak)]), func)
  }

  /** One decorator application `@registry.add(etagGen, weak)` on `func`. */
  datatype Registration<E, G> = Registration(func: E, config: Config<G>)

  /** The registry after applying `regs` in order, as module import runs the
      decorators one after another. */
  function RegisterAll<E(!new), G>(r: Registry<E, G>, regs: seq<Registration<E, G>>): Registry<E, G>
    decreases |regs|
  {
    if regs == [] then r
    else RegisterAll(Add(r, regs[0].config.etagGen, regs[0].func, regs[0].config.weak).0, regs[1..])
  }

  /** The configuration of the last registration of `f` in `regs`, if any. */
  function LastConfig<E(==), G>(regs: seq<Registration<E, G>>, f: E): Option<Config<G>>
    decreases |regs|
  {
    if regs == [] then None
    else if regs[|regs| - 1].func == f then Some(regs[|regs| - 1].config)
    else LastConfig(regs[..|regs| - 1], f)
  }

  /** Looking `f` up in `regs` with one registration in front: the tail wins
      when it mentions `f`, otherwise the front registration decides. */
  lemma {:induction false} LastConfigCons<E, G>(x: Registration<E, G>, regs: seq<Registration<E, G>>, f: E)
    ensures LastConfig([x] + regs, f) ==
      (if LastConfig(regs, f).Some? then LastConfig(regs, f)
       else if x.func == f then Some(x.config) else None)
    decreases |regs|
  {
    if regs != [] {
      var n := |regs|;
      assert ([x] + regs)[n] == regs[n - 1];
      assert ([x] + regs)[..n] == [x] + regs[..n - 1];
      LastConfigCons(x, regs[..n - 1], f);
    }
  }

  /** After a run of registrations, an endpoint maps to its last registered
      pair; an endpoint the run never mentions keeps its earlier entry (or
      stays absent). */
  lemma {:induction false} RegisterAllGet<E(!new), G>(r: Registry<E, G>, regs: seq<Registration<E, G>>, f: E)
    ensures Get(RegisterAll(r, regs), f) == (if LastConfig(regs, f).Some? then LastConfig(regs, f) else Get(r, f))
    decreases |regs|
  {
    if regs != [] {
      var x := regs[0];
      var r' := Add(r, x.config.etagGen, x.func, x.config.weak).0;
      RegisterAllGet(r', regs[1..], f);
      assert regs == [x] + regs[1..];
      LastConfigCons(x, regs[1..], f);
    }
  }

  /** A class made by `make_route_class`, owning its registry. */
  datatype EtagRoute<E, G> = EtagRoute(registry: Registry<E, G>)

  /** `make_route_class(registry)`: the given registry (a `Registry` object is
      always truthy), or a fresh empty one for `None`. */
  function MakeRouteClass<E(!new), G>(registry: Option<Registry<E, G>> := None): (c: EtagRoute<E, G>)
    ensures registry.Some? ==> c.registry == registry.value
    ensures registry.None? ==> forall f :: Get(c.registry, f) == None
  {
    EtagRoute(registry.GetOr(EmptyRegistry()))
  }

  /** The classmethod `BaseEtagRoute.add`, delegating to the class's registry. */
  function RouteAdd<E(!new), G>(c: EtagRoute<E, G>, etagGen: Option<G>, func: E, weak: bool := true): (res: (EtagRoute<E, G>, E))
    ensures res.1 == func
    ensures Get(res.0.registry, func) == Some(Config(etagGen, weak))
    ensures forall f :: f != func ==> Get(res.0.registry, f) == Get(c.registry, f)
  {
    var (reg, f) := Add(c.registry, etagGen, func, weak);
    (EtagRoute(reg), f)
  }

  /** Unpacking the `None` that `get` returns for an unregistered endpoint. */
  datatype HandlerError = UnregisteredEndpoint

  /** The response the route sends, and whether the original handler ran. */
  datatype Dispatch = Dispatch(response: Response, handlerInvoked: bool)

  /** `custom_handler` for one request to `endpoint`. `run` is the (awaited)
      result of a generator; `handlerResponse` is what the original handler
      would return. */
  function Handle<E, G>(c: EtagRoute<E, G>, endpoint: E, run: (G, Request) -> Option<string>,
                        req: Request, handlerResponse: Response): (r: Result<Dispatch, HandlerError>)
    // An endpoint never added to the registry fails rather than passing through.
    ensures r.Failure? <==> Get(c.registry, endpoint).None?
    // A falsy generator: the handler's response, untouched.
    ensures Get(c.registry, endpoint).Some? && Get(c.registry, endpoint).value.etagGen.None? ==>
      r == Success(Dispatch(handlerResponse, true))
    ensures Get(c.registry, endpoint).Some? && Get(c.registry, endpoint).value.etagGen.Some? ==>
      var cfg := Get(c.registry, endpoint).value;
      var token := run(cfg.etagGen.value, req);
      && r.Success?
      // The handler is skipped exactly when the client sent the served etag verbatim.
      && (!r.value.handlerInvoked <==> Truthy(token) && req.ifNoneMatch == Some(Served(token.value, cfg.weak)))
      // Skipped: an empty 304 whose only header is the served etag.
      && (!r.value.handlerInvoked ==>
            && r.value.response.status == 304 && r.value.response.body == ""
            && r.value.response.headers == map[EtagKey := Served(token.value, cfg.weak)])
      // Invoked: the handler's status and body, its headers except `etag`.
      && (r.value.handlerInvoked ==>
            && r.value.response.status == handlerResponse.status
            && r.value.response.body == handlerResponse.body
            && r.value.response.headers - {EtagKey} == handlerResponse.headers - {EtagKey})
      // `etag` is set to the served value exactly when the token is truthy.
      && (Truthy(token) ==>
            EtagKey in r.value.response.headers && r.value.response.headers[EtagKey] == Served(token.value, cfg.weak))
      && (!Truthy(token) ==> r.value.response == handlerResponse)
  {
    match Get(c.registry, endpoint)
    case None => Failure(UnregisteredEndpoint)
    case Some(Config(None, _)) => Success(Dispatch(handlerResponse, true))
    case Some(Config(Some(gen), weak)) =>
      var etag := Normalize(run(gen, req), weak);
      var modified := IsModified(etag, req);
      var resp := if modified then handlerResponse else Response(304, "", map[]);
      var tagged := if Truthy(etag) then resp.(headers := resp.headers[EtagKey := etag.value]) else resp;
      Success(Dispatch(tagged, modified))
  }
}
