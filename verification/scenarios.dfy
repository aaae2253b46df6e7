/** The example applications and their test cases, as concrete instances of
    the model: `get_hello_etag` answers `etagfor<name>`. */
module Scenarios {
  import opened Wrappers
  import opened Http
  import opened Conditional
  import opened Dependency
  import opened Route

  /** The example apps' single generator. */
  datatype Generator = GetHelloEtag

  /** `get_hello_etag` of the route-class example: `etagfor<name>`, and
      `None` when the path has no `name` or an empty one. */
  function HelloEtag(g: Generator, req: Request): (r: Option<string>)
    ensures "name" in req.pathParams && req.pathParams["name"] != "" ==>
      r == Some("etagfor" + req.pathParams["name"])
    ensures "name" !in req.pathParams || req.pathParams["name"] == "" ==> r.None?
  {
    if "name" in req.pathParams && req.pathParams["name"] != "" then Some("etagfor" + req.pathParams["name"]) else None
  }

  /** A request for `/hello/foo` with the given `If-None-Match`. */
  function HelloFoo(ifNoneMatch: Option<string>): Request {
    Request(map["name" := "foo"], ifNoneMatch)
  }

  /** `/hello/foo` is served as `W/"etagforfoo"`, whatever the client sends. */
  lemma HelloFooToken(ifNoneMatch: Option<string>)
    ensures HelloEtag(GetHelloEtag, HelloFoo(ifNoneMatch)) == Some("etagforfoo")
    ensures Served("etagforfoo", true) == "W/\"etagforfoo\""
  {
    var req := HelloFoo(ifNoneMatch);
    assert req.pathParams["name"] == "foo";
    assert "etagfor" + "foo" == "etagforfoo";
  }

  /** A plain GET of `/hello/foo` proceeds, tagged `W/"etagforfoo"`. */
  lemma ProducesEtag()
    ensures Call(Etag(GetHelloEtag), HelloEtag, HelloFoo(None), map[])
            == Proceed(map["etag" := "W/\"etagforfoo\""], Some("W/\"etagforfoo\""))
  {
    HelloFooToken(None);
    var tagged: HeaderMap := map["etag" := "W/\"etagforfoo\""];
    assert Update(map[], Update(map[], tagged)) == tagged;
  }

  /** Sending that etag back yields an empty 304 whose only header is it. */
  lemma Produces304()
    ensures var o := Call(Etag(GetHelloEtag), HelloEtag, HelloFoo(Some("W/\"etagforfoo\"")), map[]);
      && o.CacheHit?
      && ExceptionHandler(o) == Response(304, "", map["etag" := "W/\"etagforfoo\""])
  {
  }

  /** Any other `If-None-Match` value lets the endpoint run, still tagged. */
  lemma WrongEtagProduces200(v: Option<string>)
    requires v != Some("W/\"etagforfoo\"")
    ensures Call(Etag(GetHelloEtag), HelloEtag, HelloFoo(v), map[])
            == Proceed(map["etag" := "W/\"etagforfoo\""], Some("W/\"etagforfoo\""))
  {
    HelloFooToken(v);
    var tagged: HeaderMap := map["etag" := "W/\"etagforfoo\""];
    assert Update(map[], Update(map[], tagged)) == tagged;
  }

  /** The route-class example: `hello` registered through `EtagRoute.add`
      answers a matching request with an empty 304 without running. */
  lemma RouteClassProduces304(hello: int, handlerResponse: Response)
    ensures var (cls, f) := RouteAdd(MakeRouteClass(), Some(GetHelloEtag), hello);
      && f == hello
      && Handle(cls, hello, HelloEtag, HelloFoo(Some("W/\"etagforfoo\"")), handlerResponse)
         == Success(Dispatch(Response(304, "", map["etag" := "W/\"etagforfoo\""]), false))
  {
  }
}
