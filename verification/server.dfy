/**
 The mock server's four handlers over its endpoint list: list, register,
 delete by criteria and answer a live request. Each handler is a function
 from the current list (and its input) to the new list and the reply.
 */
module Server {
  import opened Wrappers
  import opened JsValue
  import opened Matcher
  import opened Registry

  /** The server's only state: its endpoint list, newest registration first. */
  datatype State = State(endpoints: seq<Endpoint>)

  /** What a handler sends back. */
  datatype Body =
    | Listing(endpoints: seq<Endpoint>)
    | Content(content: Value)
    | Message(text: string)

  datatype Reply = Reply(status: int, body: Body)

  /** An inbound request after cookie-parser: its cookies always form an
      object, empty when the request carried none. */
  datatype LiveRequest = LiveRequest(httpMethod: string, originalUrl: string, cookies: map<string, Value>)

  /** The body of a delete call: `{path, method, cookie}`; `cookie` is
      whatever the body held under that key. */
  datatype DeleteBody = DeleteBody(path: string, httpMethod: string, cookie: Slot)

  const NotFound := "No endpoints configured for this request"

  /** A freshly constructed server: it holds no endpoint, so it answers
      every live request with 404. */
  function Start(): (s: State)
    ensures |s.endpoints| == 0
    ensures forall test: PathTest, req: LiveRequest :: HandleRequest(test, s, req) == Reply(404, Message(NotFound))
  {
    State([])
  }

  /** `getEndpoints`: the stored list as it is. Whatever a live request is
      answered with comes from an endpoint this listing shows. */
  function GetEndpoints(s: State): (r: Reply)
    ensures r.status == 200 && r.body.Listing? && r.body.endpoints == s.endpoints
    ensures forall test: PathTest, req: LiveRequest :: HandleRequest(test, s, req).body.Content? ==>
              exists i :: 0 <= i < |r.body.endpoints|
                          && HandleRequest(test, s, req) == Reply(r.body.endpoints[i].response.status, Content(r.body.endpoints[i].response.content))
  {
    Reply(200, Listing(s.endpoints))
  }

  /** `addEndpoint`: store the body in front and reply with the new list. */
  function AddEndpoint(s: State, e: Endpoint): (r: (State, Reply))
    ensures |r.0.endpoints| == |s.endpoints| + 1
    ensures r.0.endpoints[0] == e && r.0.endpoints[1..] == s.endpoints
    ensures r.1 == GetEndpoints(r.0)
  {
    var s' := State(Prepend(s.endpoints, e));
    (s', Reply(200, Listing(s'.endpoints)))
  }

  /** The request a delete call matches with: the body's `path` as the url
      and the body's whole cookie descriptor as the cookie object, so every
      field of the descriptor (name, value, domain, ...) counts as a value. */
  function CriteriaRequest(body: DeleteBody): (req: Request)
    ensures req.originalUrl == body.path && req.httpMethod == body.httpMethod
    ensures body.cookie.Some? && body.cookie.value.Obj? ==>
              ObjectValues(req.cookies) == Ok(body.cookie.value.fields.Values)
    ensures ObjectValues(req.cookies).Err? <==> body.cookie == None || body.cookie == Some(Null)
    ensures ObjectValues(req.cookies).Ok? ==>
              forall x :: x in ObjectValues(req.cookies).value <==> Lists(body.cookie.value, x)
  {
    Request(body.httpMethod, body.path, body.cookie)
  }

  /** `deleteEndpoint`: keep the entries the criteria do not match. A throw
      of the matcher leaves the list as it was, and the handler sends no reply
      of its own. */
  function DeleteEndpoint(test: PathTest, s: State, body: DeleteBody): (r: (State, Result<Reply, TypeError>))
    ensures r.1.Err? <==>
              (body.cookie == None || body.cookie == Some(Null))
              && exists i :: 0 <= i < |s.endpoints| && Truthy(s.endpoints[i].cookie)
    ensures r.1.Err? ==> r.0 == s
    ensures r.1.Ok? ==> r.1.value == GetEndpoints(r.0)
    ensures r.1.Ok? ==> forall x :: x in r.0.endpoints ==> Matches(test, CriteriaRequest(body), x) == Ok(false)
    ensures r.1.Ok? ==> forall x :: Matches(test, CriteriaRequest(body), x) == Ok(false) ==>
                          multiset(r.0.endpoints)[x] == multiset(s.endpoints)[x]
  {
    match Reject(test, CriteriaRequest(body), s.endpoints)
    case Err(err) => (s, Err(err))
    case Ok(kept) => (State(kept), Ok(Reply(200, Listing(kept))))
  }

  /** How the matcher sees a live request. */
  function AsRequest(req: LiveRequest): Request {
    Request(req.httpMethod, req.originalUrl, Some(Obj(req.cookies)))
  }

  /** `handleRequest`: the canned response of the first stored endpoint that
      matches, else 404 with a fixed message. A live request always has a
      cookie object, so the matcher never throws here. */
  function HandleRequest(test: PathTest, s: State, req: LiveRequest): (r: Reply)
    ensures r.body.Message? <==> forall i :: 0 <= i < |s.endpoints| ==> Matches(test, AsRequest(req), s.endpoints[i]) == Ok(false)
    ensures r.body.Message? ==> r == Reply(404, Message(NotFound))
    ensures !r.body.Message? ==>
              exists i :: 0 <= i < |s.endpoints| && Matches(test, AsRequest(req), s.endpoints[i]) == Ok(true)
                          && r == Reply(s.endpoints[i].response.status, Content(s.endpoints[i].response.content))
                          && forall j :: 0 <= j < i ==> Matches(test, AsRequest(req), s.endpoints[j]) == Ok(false)
  {
    match FindFirst(test, AsRequest(req), s.endpoints)
    case Ok(Some(e)) => Reply(e.response.status, Content(e.response.content))
    case Ok(None) => Reply(404, Message(NotFound))
    case Err(_) => assert false; Reply(404, Message(NotFound))
  }

  /** A new server lists nothing. */
  lemma FreshServerKnowsNothing()
    ensures GetEndpoints(Start()) == Reply(200, Listing([]))
  {
  }

  /** After registering `e`, every request `e` accepts is answered by `e`,
      whatever was registered before. */
  lemma NewestRegistrationAnswers(test: PathTest, s: State, e: Endpoint, req: LiveRequest)
    requires Matches(test, AsRequest(req), e) == Ok(true)
    ensures HandleRequest(test, AddEndpoint(s, e).0, req) == Reply(e.response.status, Content(e.response.content))
  {
  }

  /** Deleting with the same criteria twice is deleting once. */
  lemma DeleteTwiceIsDeleteOnce(test: PathTest, s: State, body: DeleteBody)
    ensures DeleteEndpoint(test, DeleteEndpoint(test, s, body).0, body) == DeleteEndpoint(test, s, body)
  {
    if Reject(test, CriteriaRequest(body), s.endpoints).Ok? {
      RejectIdempotent(test, CriteriaRequest(body), s.endpoints);
    }
  }

  /** Criteria that match no stored endpoint leave the list exactly as it
      was, and criteria that leave it as it was match none of it. */
  lemma DeleteNoHitIsNoOp(test: PathTest, s: State, body: DeleteBody)
    ensures DeleteEndpoint(test, s, body).0 == s && DeleteEndpoint(test, s, body).1.Ok?
            <==> forall i :: 0 <= i < |s.endpoints| ==> Matches(test, CriteriaRequest(body), s.endpoints[i]) == Ok(false)
  {
    RejectUnchangedIffNoHit(test, CriteriaRequest(body), s.endpoints);
  }

  /** Deletion keeps the surviving entries in their stored order. */
  lemma DeleteKeepsOrder(test: PathTest, s: State, body: DeleteBody)
    requires DeleteEndpoint(test, s, body).1.Ok?
    ensures IsSubsequence(DeleteEndpoint(test, s, body).0.endpoints, s.endpoints)
  {
    RejectKeepsOrder(test, CriteriaRequest(body), s.endpoints);
  }

  /** Because the whole descriptor serves as the cookie object, a cookie-bearing
      endpoint is deleted when ANY field of the descriptor (its name, its
      domain, ...) equals the registered value, even when the descriptor's own
      `value` differs from it. */
  lemma AnyDescriptorFieldDeletes(test: PathTest, s: State, body: DeleteBody, e: Endpoint, key: string)
    requires e in s.endpoints
    requires e.httpMethod == body.httpMethod && test(e.path, body.path)
    requires Truthy(e.cookie) && CookieValue(e).Some? && IsPrimitive(CookieValue(e).value)
    requires body.cookie.Some? && body.cookie.value.Obj?
    requires key in body.cookie.value.fields && body.cookie.value.fields[key] == CookieValue(e).value
    requires DeleteEndpoint(test, s, body).1.Ok?
    ensures e !in DeleteEndpoint(test, s, body).0.endpoints
  {
  }

  /** A delete call without a cookie aborts as soon as the list holds any
      cookie-bearing endpoint, even one whose method and path differ from
      the criteria; nothing is deleted, the cookie-less matches included. */
  lemma CookielessDeleteAborts(test: PathTest, s: State, body: DeleteBody, i: nat)
    requires body.cookie == None
    requires i < |s.endpoints| && Truthy(s.endpoints[i].cookie)
    ensures DeleteEndpoint(test, s, body).1.Err?
    ensures DeleteEndpoint(test, s, body).0 == s
  {
  }

  /** A live request never makes the matcher throw. */
  lemma LiveRequestsNeverThrow(test: PathTest, req: LiveRequest, e: Endpoint)
    ensures Matches(test, AsRequest(req), e).Ok?
  {
  }
}
