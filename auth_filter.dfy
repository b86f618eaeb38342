/**
 * AuthFilter.java: the stateless gate in front of the API routes. The token is
 * fixed when the filter is built and may be null; a request passes on a
 * matching `Authorization: Bearer <token>` header, then on a matching
 * `?token=` query parameter, and is otherwise answered with 401.
 */
module LegacyAuth {
  import opened Base

  /** How the filter decided: the first check that matched, or the 401 reply. */
  datatype Verdict = ViaHeader | ViaQuery | Rejected(status: int, body: string)

  predicate Authorized(v: Verdict) { !v.Rejected? }

  const BearerPrefix: string := "Bearer "

  /** Java string concatenation renders a null token as "null". */
  function TokenText(token: Option<string>): string
  {
    if token.None? then "null" else token.value
  }

  /** The header value the filter accepts: `"Bearer " + token`. */
  function ExpectedHeader(token: Option<string>): (h: string)
    ensures |h| >= |BearerPrefix| && h[..|BearerPrefix|] == BearerPrefix
    ensures token.Some? ==> h[|BearerPrefix|..] == token.value
    ensures token.None? ==> h == "Bearer null"
  {
    BearerPrefix + TokenText(token)
  }

  /** `queryToken.equals(token)`: never true for a null token. */
  predicate QueryMatches(token: Option<string>, queryToken: Option<string>)
  {
    queryToken.Some? && token.Some? && queryToken.value == token.value
  }

  /**
   * `handle`: `token` is the configured token (None for null), `authorization`
   * the header and `queryToken` the query parameter (None when absent).
   */
  function Handle(token: Option<string>, authorization: Option<string>, queryToken: Option<string>): (v: Verdict)
    ensures Authorized(v) <==>
              authorization == Some(ExpectedHeader(token)) || (token.Some? && queryToken == token)
    ensures v == ViaHeader <==> authorization == Some(ExpectedHeader(token))
    ensures v == ViaQuery ==> token.Some? && queryToken == token
    ensures v.Rejected? ==> v.status == 401 && v.body == "Unauthorized"
  {
    if authorization.Some? && authorization.value == ExpectedHeader(token) then ViaHeader
    else if QueryMatches(token, queryToken) then ViaQuery
    else Rejected(401, "Unauthorized")
  }

  /** A missing header leaves the query parameter as the only way in, and vice versa. */
  lemma MissingCredentialNeverAuthorizes(token: Option<string>, authorization: Option<string>, queryToken: Option<string>)
    ensures authorization.None? ==>
              (Authorized(Handle(token, authorization, queryToken)) <==> token.Some? && queryToken == token)
    ensures queryToken.None? ==>
              (Authorized(Handle(token, authorization, queryToken)) <==> authorization == Some(ExpectedHeader(token)))
    ensures authorization.None? && queryToken.None? ==> Handle(token, authorization, queryToken) == Rejected(401, "Unauthorized")
  {
  }

  /** The bare token in the header, without the "Bearer " scheme, is refused. */
  lemma BareTokenHeaderRejected(token: string)
    ensures Handle(Some(token), Some(token), None).Rejected?
  {
    assert |ExpectedHeader(Some(token))| != |token|;
  }

  /**
   * With a null token only the literal header "Bearer null" is admitted; no
   * query parameter is.
   */
  lemma NullTokenAdmitsOnlyBearerNull(authorization: Option<string>, queryToken: Option<string>)
    ensures Authorized(Handle(None, authorization, queryToken)) <==> authorization == Some("Bearer null")
    ensures !Authorized(Handle(None, None, queryToken))
  {
  }
}
