/** The slice of HTTP the ETag logic touches: request header lookup, header
    maps with Python `dict.update` semantics, and plain responses. */
module Http {
  import opened Wrappers

  /** Header name to value. Names are compared exactly (lower-case by
      convention); case-insensitive lookup is not modelled. */
  type HeaderMap = map<string, string>

  /** The name under which the computed token is served. */
  const EtagKey: string := "etag"

  /** What the ETag logic reads from a request: the path parameters (the
      usual input of a token generator) and the `If-None-Match` header,
      `None` when the client did not send it. */
  datatype Request = Request(pathParams: map<string, string>, ifNoneMatch: Option<string>)

  datatype Response = Response(status: int, body: string, headers: HeaderMap)

  /** `base.update(upd)`: every entry of `upd` is written over `base`. */
  function Update(base: HeaderMap, upd: HeaderMap): (r: HeaderMap)
    ensures r.Keys == base.Keys + upd.Keys
    ensures forall k :: k in upd ==> r[k] == upd[k]
    ensures forall k :: k in base && k !in upd ==> r[k] == base[k]
  {
    base + upd
  }
}
