/**
 The behaviour the server's own test suite describes, restated over the
 model. Path templates in these cases are plain literals, which the path test
 matches exactly; the cookie expiry is an arbitrary number.
 */
module Scenarios {
  import opened Wrappers
  import opened JsValue
  import opened Matcher
  import opened Registry
  import opened Server

  const Path1 := "/myTestEndpoint1"
  const Path2 := "/myTestEndpoint2"
  const Elsewhere := "/nonMatchingEndpoint1"
  const Unknown := "/nonMatchingEndpoint"

  /** The path test treats the literal paths of these cases as exact strings. */
  ghost predicate ExactOnTestPaths(test: PathTest) {
    forall t, u :: t in {Path1, Path2} && u in {Path1, Path2, Elsewhere, Unknown} ==> (test(t, u) <==> t == u)
  }

  function Endpoint1(): Endpoint {
    Endpoint("GET", Path1, None, Response(200, Str("endpoint1")))
  }

  function Endpoint2(): Endpoint {
    Endpoint("GET", Path2, None, Response(200, Str("endpoint2")))
  }

  /** A cookie descriptor as a client would send it. */
  function Descriptor(value: string, expiry: real): Value {
    Obj(map[
      "name" := Str("e2e"),
      "value" := Str(value),
      "path" := Str("/"),
      "domain" := Str("mydomain.com"),
      "expiry" := Num(expiry),
      "httpOnly" := Bool(true)
    ])
  }

  function WithCookie(e: Endpoint, expiry: real): Endpoint {
    e.(cookie := Some(Descriptor("cookieValue", expiry)))
  }

  /** What cookie-parser makes of `e2e=<value>;path=/;domain=mydomain.com`. */
  function CookieHeader(value: string): map<string, Value> {
    map["e2e" := Str(value), "path" := Str("/"), "domain" := Str("mydomain.com")]
  }

  /** A matching request gets the first endpoint's content; another path gets 404. */
  lemma PlainRequests(test: PathTest)
    requires ExactOnTestPaths(test)
    ensures HandleRequest(test, State([Endpoint1(), Endpoint2()]), LiveRequest("GET", Path1, map[]))
            == Reply(200, Content(Str("endpoint1")))
    ensures HandleRequest(test, State([Endpoint1(), Endpoint2()]), LiveRequest("GET", Unknown, map[]))
            == Reply(404, Message(NotFound))
  {
  }

  /** Deleting by path and method removes that endpoint only; a path nobody
      registered removes nothing. */
  lemma PlainDeletes(test: PathTest)
    requires ExactOnTestPaths(test)
    ensures DeleteEndpoint(test, State([Endpoint1(), Endpoint2()]), DeleteBody(Path1, "GET", None)).0
            == State([Endpoint2()])
    ensures DeleteEndpoint(test, State([Endpoint1(), Endpoint2()]), DeleteBody(Elsewhere, "GET", None)).0
            == State([Endpoint1(), Endpoint2()])
  {
  }

  /** A request carrying the registered cookie value is answered; one with
      another value under the same name is not. */
  lemma CookieRequests(test: PathTest, expiry: real)
    requires ExactOnTestPaths(test)
    ensures HandleRequest(test, State([WithCookie(Endpoint1(), expiry), WithCookie(Endpoint2(), expiry)]),
                          LiveRequest("GET", Path1, CookieHeader("cookieValue"))).status == 200
    ensures HandleRequest(test, State([WithCookie(Endpoint1(), expiry), WithCookie(Endpoint2(), expiry)]),
                          LiveRequest("GET", Path1, CookieHeader("nonMatchingCookieValue"))).status == 404
  {
    assert CookieHeader("cookieValue")["e2e"] == Str("cookieValue");
  }

  /** Deleting with the registered descriptor removes the endpoint at that
      path and leaves the other. */
  lemma MatchingCookieDeletes(test: PathTest, expiry: real, expiry': real)
    requires ExactOnTestPaths(test)
    ensures DeleteEndpoint(test, State([WithCookie(Endpoint1(), expiry), WithCookie(Endpoint2(), expiry)]),
                           DeleteBody(Path1, "GET", Some(Descriptor("cookieValue", expiry')))).0
            == State([WithCookie(Endpoint2(), expiry)])
  {
    var criteria := CriteriaRequest(DeleteBody(Path1, "GET", Some(Descriptor("cookieValue", expiry'))));
    var first, second := WithCookie(Endpoint1(), expiry), WithCookie(Endpoint2(), expiry);
    assert Descriptor("cookieValue", expiry').fields["value"] == Str("cookieValue");
    assert Lists(Descriptor("cookieValue", expiry'), Str("cookieValue"));
    assert Matches(test, criteria, first) == Ok(true);
    assert Matches(test, criteria, second) == Ok(false);
    assert [first, second][1..] == [second];
    assert Reject(test, criteria, [second]) == Ok([second] + []);
  }

  /** Criteria that miss on the path, or carry a descriptor whose value is
      another one, delete nothing. */
  lemma UnmatchedCriteriaKeep(test: PathTest, path: string, value: string, expiry: real, expiry': real)
    requires ExactOnTestPaths(test)
    requires path == Elsewhere || (path == Path1 && value != "cookieValue")
    ensures DeleteEndpoint(test, State([WithCookie(Endpoint1(), expiry), WithCookie(Endpoint2(), expiry)]),
                           DeleteBody(path, "GET", Some(Descriptor(value, expiry')))).0
            == State([WithCookie(Endpoint1(), expiry), WithCookie(Endpoint2(), expiry)])
  {
    var criteria := CriteriaRequest(DeleteBody(path, "GET", Some(Descriptor(value, expiry'))));
    var stored := [WithCookie(Endpoint1(), expiry), WithCookie(Endpoint2(), expiry)];
    forall i | 0 <= i < |stored|
      ensures Matches(test, criteria, stored[i]) == Ok(false)
    {
      if path == Path1 {
        assert !Lists(Descriptor(value, expiry'), Str("cookieValue"));
      }
    }
    NoHitLeavesListAlone(test, criteria, stored);
  }

  /** A descriptor whose `name` happens to be the registered value deletes
      the endpoint although its `value` differs. */
  lemma DescriptorNameDeletes(test: PathTest, expiry: real)
    requires ExactOnTestPaths(test)
    ensures DeleteEndpoint(test, State([WithCookie(Endpoint1(), expiry)]),
                           DeleteBody(Path1, "GET", Some(Obj(map["name" := Str("cookieValue"), "value" := Str("other")])))).0
            == State([])
  {
    assert map["name" := Str("cookieValue"), "value" := Str("other")]["name"] == Str("cookieValue");
  }

  /** A plain-string cookie in a delete body is split into UTF-16 code units,
      so an emoji there never equals a registered emoji value and the
      endpoint stays. */
  lemma EmojiStringCookieKeeps(test: PathTest)
    requires ExactOnTestPaths(test)
    ensures DeleteEndpoint(test, State([Endpoint1().(cookie := Some(Obj(map["value" := Str("\U{1F600}")])))]),
                           DeleteBody(Path1, "GET", Some(Str("\U{1F600}")))).0
            == State([Endpoint1().(cookie := Some(Obj(map["value" := Str("\U{1F600}")])))])
  {
  }
}
