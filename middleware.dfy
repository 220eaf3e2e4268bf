/** The route guard (`src/middleware.ts`): every matched request proceeds
    when it is for `/login` or carries a token, and is redirected to the
    login page otherwise. The token is never validated. */
module Middleware {
  import opened Common
  import opened Text

  /** What the guard reads of a request: the origin of its URL, its path,
      the `authToken` cookie and the `authorization` header. */
  datatype Request = Request(
    origin: string,
    pathname: string,
    cookieToken: Option<string>,
    authorization: Option<string>)

  datatype Decision = Next | Redirect(location: string)

  const LoginPath: string := "/login"
  const BearerPrefix: string := "Bearer "

  /** `cookie?.value || header?.replace('Bearer ', '')`: a non-empty
      cookie wins; otherwise the header with its first `Bearer ` removed. */
  function TokenOf(cookieToken: Option<string>, authorization: Option<string>): (token: Option<string>)
    ensures Truthy(cookieToken) ==> token == cookieToken
    ensures !Truthy(cookieToken) && authorization.None? ==> token.None?
    ensures !Truthy(cookieToken) && authorization.Some? ==>
      token == Some(ReplaceFirst(authorization.value, BearerPrefix, ""))
  {
    if Truthy(cookieToken) then cookieToken
    else if authorization.Some? then Some(ReplaceFirst(authorization.value, BearerPrefix, ""))
    else None
  }

  /** `middleware(request)`. */
  function Decide(rq: Request): (d: Decision)
    ensures d.Next? <==> rq.pathname == LoginPath || Truthy(TokenOf(rq.cookieToken, rq.authorization))
    ensures d.Redirect? ==> d.location == rq.origin + LoginPath
  {
    if rq.pathname == LoginPath then Next
    else if !Truthy(TokenOf(rq.cookieToken, rq.authorization)) then Redirect(rq.origin + LoginPath)
    else Next
  }

  /** The login page is always reachable, whatever the token. */
  lemma LoginAlwaysProceeds(origin: string, cookieToken: Option<string>, authorization: Option<string>)
    ensures Decide(Request(origin, LoginPath, cookieToken, authorization)) == Next
  {
  }

  /** Removing the first `Bearer ` from a header that starts with it leaves
      the rest of the header. */
  lemma StripBearer(rest: string)
    ensures ReplaceFirst(BearerPrefix + rest, BearerPrefix, "") == rest
  {
    var h := BearerPrefix + rest;
    assert OccursAt(h, BearerPrefix, 0) by {
      assert h[..|BearerPrefix|] == BearerPrefix;
    }
    assert IndexOf(h, BearerPrefix) == Some(0);
    assert h[|BearerPrefix|..] == rest;
  }

  /** A `Bearer <t>` header with no cookie proceeds exactly when `t` is not
      empty: a header of exactly `Bearer ` is redirected. */
  lemma BearerHeader(origin: string, pathname: string, t: string)
    requires pathname != LoginPath
    ensures Decide(Request(origin, pathname, None, Some(BearerPrefix + t))).Next? <==> t != ""
  {
    StripBearer(t);
  }

  /** A request with neither cookie nor header goes to the login page of
      the same origin. */
  lemma NoTokenRedirects(origin: string, pathname: string)
    requires pathname != LoginPath
    ensures Decide(Request(origin, pathname, None, None)) == Redirect(origin + "/login")
  {
  }

  /** Only emptiness matters: two requests for the same path whose cookie
      tokens are both non-empty get the same decision. */
  lemma TokenNotValidated(rq1: Request, rq2: Request)
    requires rq1.pathname == rq2.pathname
    requires Truthy(rq1.cookieToken) && Truthy(rq2.cookieToken)
    ensures Decide(rq1) == Decide(rq2) == Next
  {
  }

  /** A header without `Bearer ` anywhere in it is used whole as the
      token. */
  lemma HeaderWithoutBearer(h: string)
    requires forall j :: 0 <= j ==> !OccursAt(h, BearerPrefix, j)
    ensures TokenOf(None, Some(h)) == Some(h)
  {
  }
}
