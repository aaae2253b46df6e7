/** The rules shared by both integrations: Python truthiness of a token,
    weak normalisation, and the `If-None-Match` freshness test. */
module Conditional {
  import opened Wrappers
  import opened Http

  /** Python truthiness of an optional string: `None` and `""` are falsy. */
  predicate Truthy(s: Option<string>) {
    s.Some? && s.value != ""
  }

  /** The `etag` value a truthy token `t` is served with: `W/"t"` when weak,
      `t` itself, unquoted, when strong. */
  function Served(t: string, weak: bool): (r: string)
    ensures weak ==>
      && |r| == |t| + 4
      && r[..3] == "W/\""
      && r[3..|r| - 1] == t
      && r[|r| - 1] == '"'
    ensures !weak ==> r == t
  {
    if weak then "W/\"" + t + "\"" else t
  }

  /** The token as served: a truthy token becomes `W/"t"` when `weak` is set;
      any other token (a strong one, `None`, `""`) passes through verbatim,
      with no quotes added. */
  function Normalize(token: Option<string>, weak: bool): (r: Option<string>)
    ensures Truthy(r) <==> Truthy(token)
    ensures !(weak && Truthy(token)) ==> r == token
  {
    if Truthy(token) then Some(Served(token.value, weak)) else token
  }

  /** Inverse of weak `Served`: the token inside `W/"..."`, or `None` when `s`
      does not have that shape. */
  function Unweak(s: string): (r: Option<string>)
    ensures r.Some? ==> |r.value| + 4 == |s|
  {
    if |s| >= 4 && s[..3] == "W/\"" && s[|s| - 1] == '"' then Some(s[3..|s| - 1]) else None
  }

  /** `is_modified`: the response must be produced again unless the token is
      truthy and the client's `If-None-Match` value is exactly that token. */
  function IsModified(etag: Option<string>, req: Request): (r: bool)
    ensures !r <==> Truthy(etag) && req.ifNoneMatch == etag
    ensures !Truthy(req.ifNoneMatch) ==> r
  {
    if !Truthy(etag) then true
    else
      var client := req.ifNoneMatch;
      !Truthy(client) || etag.value != client.value
  }

  /** A weak token is served as exactly `W/"t"`: the prefix `W/"`, the token,
      and a closing quote. */
  lemma NormalizeWeakShape(t: string)
    requires t != ""
    ensures Normalize(Some(t), true).Some?
    ensures var v := Normalize(Some(t), true).value;
      && |v| == |t| + 4
      && v[..3] == "W/\""
      && v[3..|v| - 1] == t
      && v[|v| - 1] == '"'
  {
  }

  /** Stripping `W/"..."` from a weakly served token gives the token back. */
  lemma UnweakNormalize(t: string)
    requires t != ""
    ensures Unweak(Normalize(Some(t), true).value) == Some(t)
  {
  }

  /** For a fixed `weak` flag, distinct truthy tokens are served as distinct
      etags, so one resource version can never answer for another. */
  lemma NormalizeInjective(a: Option<string>, b: Option<string>, weak: bool)
    requires Truthy(a) && Truthy(b)
    requires Normalize(a, weak) == Normalize(b, weak)
    ensures a == b
  {
    if weak {
      UnweakNormalize(a.value);
      UnweakNormalize(b.value);
    }
  }

  /** A strong token is compared without quotes, so a client echoing it in
      the quoted form `"t"` of section 2.3 of RFC 7232 never gets a hit. */
  lemma StrongQuotedNeverMatches(t: string, req: Request)
    requires t != ""
    requires req.ifNoneMatch == Some("\"" + t + "\"")
    ensures IsModified(Normalize(Some(t), false), req)
  {
  }
}
