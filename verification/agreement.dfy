/** The two integrations implement one rule. For an endpoint configured with
    the same generator and weak flag, and no extra headers, the dependency
    and the route class make the same decision and serve the same etag. */
module Agreement {
  import opened Wrappers
  import opened Http
  import opened Conditional
  import opened Dependency
  import opened Route

  /** Same configuration, same request: same decision, same etag; for a hit,
      the very same 304 response. */
  lemma IntegrationsAgree<E, G>(gen: G, weak: bool, c: EtagRoute<E, G>, endpoint: E,
                                run: (G, Request) -> Option<string>, req: Request, handlerResponse: Response)
    requires Get(c.registry, endpoint) == Some(Config(Some(gen), weak))
    ensures var o := Call(Etag(gen, weak), run, req, map[]);
      var d := Handle(c, endpoint, run, req, handlerResponse);
      && d.Success?
      && (o.CacheHit? <==> !d.value.handlerInvoked)
      && (o.CacheHit? ==> ExceptionHandler(o) == d.value.response)
      && (Truthy(run(gen, req)) ==>
            && EtagKey in o.headers && EtagKey in d.value.response.headers
            && o.headers[EtagKey] == d.value.response.headers[EtagKey])
      && (!Truthy(run(gen, req)) ==> o.headers == map[] && d.value.response == handlerResponse)
  {
  }

  /** A route class built empty and populated only by registrations that
      never name `endpoint` rejects requests to it. */
  lemma UnregisteredEndpointFails<E(!new), G>(regs: seq<Registration<E, G>>, endpoint: E,
                                       run: (G, Request) -> Option<string>, req: Request, handlerResponse: Response)
    requires LastConfig(regs, endpoint).None?
    ensures Handle(MakeRouteClass(Some(RegisterAll(EmptyRegistry(), regs))), endpoint, run, req, handlerResponse)
            == Failure(UnregisteredEndpoint)
  {
    RegisterAllGet(EmptyRegistry(), regs, endpoint);
  }

  /** A route class built empty and populated by registrations ends up with
      the generator and weak flag of the last registration of `endpoint`. */
  lemma LastRegistrationDecides<E(!new), G>(regs: seq<Registration<E, G>>, endpoint: E, cfg: Config<G>,
                                      run: (G, Request) -> Option<string>, req: Request, handlerResponse: Response)
    requires LastConfig(regs, endpoint) == Some(cfg)
    requires cfg.etagGen.Some?
    ensures var d := Handle(MakeRouteClass(Some(RegisterAll(EmptyRegistry(), regs))), endpoint, run, req, handlerResponse);
      var token := run(cfg.etagGen.value, req);
      && d.Success?
      && (!d.value.handlerInvoked <==> Truthy(token) && req.ifNoneMatch == Some(Served(token.value, cfg.weak)))
  {
    RegisterAllGet(EmptyRegistry(), regs, endpoint);
  }
}
