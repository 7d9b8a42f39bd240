/**
 The request matcher: does a stored endpoint answer a request? Method
 equality, a path-template test and an optional cookie-value test. The cookie
 test runs even when method or path already failed, and it can throw.
 */
module Matcher {
  import opened Wrappers
  import opened JsValue

  /** The canned answer of an endpoint. */
  datatype Response = Response(status: int, content: Value)

  /** A registered endpoint (`httpMethod` is its `method` key); `cookie` is whatever the registration body held
      under that key (`None` when it had none). */
  datatype Endpoint = Endpoint(httpMethod: string, path: string, cookie: Slot, response: Response)

  /** What the matcher reads from a request: its method, its `originalUrl`
      (query string included) and its `cookies` property. */
  datatype Request = Request(httpMethod: string, originalUrl: string, cookies: Slot)

  /** path-to-regexp's compile-then-test of a template against a url, taken as
      given: `test(template, url)`. */
  type PathTest = (string, string) -> bool

  /** `endpoint.cookie.value`. The matcher reads it only for a truthy cookie
      (never `undefined` or `null`, where JavaScript would throw), as every
      use below is guarded by `Truthy(e.cookie)`. */
  function CookieValue(e: Endpoint): Slot {
    if e.cookie.Some? then ValueField(e.cookie.value) else None
  }

  /** The registered cookie value is a primitive that the request's cookies
      list among their values; their names play no part. */
  ghost predicate CookieAmong(cookies: Slot, e: Endpoint) {
    && CookieValue(e).Some?
    && IsPrimitive(CookieValue(e).value)
    && cookies.Some?
    && Lists(cookies.value, CookieValue(e).value)
  }

  /** `requestMatcher(request)(endpoint)`. The cookie test runs whether or not
      method and path agreed, so it throws for a cookie-bearing endpoint
      whenever the request's cookies are `undefined` or `null`. */
  function Matches(test: PathTest, req: Request, e: Endpoint): (r: Result<bool, TypeError>)
    ensures r.Err? <==> Truthy(e.cookie) && (req.cookies == None || req.cookies == Some(Null))
    ensures r == Ok(true) <==>
              && req.httpMethod == e.httpMethod
              && test(e.path, req.originalUrl)
              && (!Truthy(e.cookie) || CookieAmong(req.cookies, e))
  {
    var matchesPathAndMethod := req.httpMethod == e.httpMethod && test(e.path, req.originalUrl);
    var shouldMatchCookie := Truthy(e.cookie);
    if !shouldMatchCookie then
      Ok(matchesPathAndMethod)
    else
      match ObjectValues(req.cookies)
      case Err(err) => Err(err)
      case Ok(vals) => Ok(matchesPathAndMethod && Includes(vals, CookieValue(e)))
  }

  /** Method comparison is exact: a request whose method differs in any way,
      letter case included, is never accepted. */
  lemma MethodMustBeIdentical(test: PathTest, req: Request, e: Endpoint)
    requires req.httpMethod != e.httpMethod
    ensures Matches(test, req, e) != Ok(true)
  {
  }

  /** An endpoint without a (truthy) cookie decides on method and path alone,
      whatever the request's cookies are, even when they are missing. */
  lemma CookielessIgnoresCookies(test: PathTest, req: Request, e: Endpoint, cookies: Slot)
    requires !Truthy(e.cookie)
    ensures Matches(test, req, e) == Matches(test, req.(cookies := cookies), e)
    ensures Matches(test, req, e) == Ok(req.httpMethod == e.httpMethod && test(e.path, req.originalUrl))
  {
  }

  /** There is no short cut past the cookie test: with cookies missing, a
      cookie-bearing endpoint throws even when method and path disagree. */
  lemma MissingCookiesThrow(test: PathTest, req: Request, e: Endpoint)
    requires Truthy(e.cookie)
    requires req.cookies == None || req.cookies == Some(Null)
    ensures Matches(test, req, e).Err?
  {
  }

  /** Monotonicity: a request whose cookies list at least the values of
      another's is accepted wherever the other is. */
  lemma MoreCookiesStillMatch(test: PathTest, req: Request, e: Endpoint, more: Value)
    requires req.cookies.Some?
    requires forall x :: Lists(req.cookies.value, x) ==> Lists(more, x)
    requires Matches(test, req, e) == Ok(true)
    ensures Matches(test, req.(cookies := Some(more)), e) == Ok(true)
  {
  }

  /** Cookie names play no role: two cookie objects that hold the same values
      under any names give the same verdict. */
  lemma CookieNamesIgnored(test: PathTest, req: Request, e: Endpoint, a: map<string, Value>, b: map<string, Value>)
    requires a.Values == b.Values
    ensures Matches(test, req.(cookies := Some(Obj(a))), e) == Matches(test, req.(cookies := Some(Obj(b))), e)
  {
  }
}
