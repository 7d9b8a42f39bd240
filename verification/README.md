# response-mock: request matcher and endpoint registry

This project models the core of response-mock, an in-memory HTTP mock
server. Clients register endpoints. Each endpoint has a method, a path
template, an optional cookie constraint and a canned response. The server
answers any other request with the first registered endpoint that matches it,
or with 404.

The model covers two parts of the source:

- **The matcher** (`Matcher.Matches`). It accepts a request when three tests
  all pass. The method must be identical. The endpoint's path template must
  match the request's `originalUrl`. And, when the endpoint carries a truthy
  `cookie`, its `cookie.value` must occur among `Object.values(request.cookies)`.
  The cookie test runs even when method or path already failed. So it throws
  a `TypeError` when the request's cookies are `undefined` or `null`, whatever
  the verdict on method and path.
- **The registry** (`Registry`, `Server`). It is an endpoint list that
  starts empty. Registration prepends. A delete call filters out every entry
  that a request built from the delete body matches. A live request gets the
  response of the first entry that matches it.

Path-template matching belongs to the path-to-regexp library. The model takes
it as a parameter, `test: PathTest`, with `test(template, url)` meaning
"the compiled template matches the url". Every result outside `Scenarios`
holds for every such predicate. The `Scenarios` lemmas assume the predicate
treats the test suite's literal paths as exact strings, which path-to-regexp
does for them.

JavaScript values are modelled in `JsValue`. `undefined` is `None`.
Truthiness, reading the `value` property, `Object.values` and the SameValueZero
test of `includes` follow JavaScript. Two arrays or objects are never the same
object here, because each comes from its own JSON parse.

Two behaviours of the code are easy to misread and are modelled as the code
has them:

- A delete call does not build a name-to-value cookie map. It passes the
  body's whole `cookie` descriptor as the request's cookies. So an endpoint's
  cookie value is compared with every field of the descriptor: name, value,
  path, domain and the rest (`Server.AnyDescriptorFieldDeletes`,
  `Scenarios.DescriptorNameDeletes`).
- Missing cookies are not treated as empty. A delete call without a cookie
  throws as soon as the list holds any cookie-bearing endpoint. The filter is
  then abandoned and the list stays as it was (`Server.CookielessDeleteAborts`).
  A live request always has a cookie object from cookie-parser, so it never
  throws (`Server.LiveRequestsNeverThrow`).

Modules: `Wrappers` (Option, Result), `JsValue`, `Matcher`, `Registry` (list
operations), `Server` (the four handlers) and `Scenarios` (the cases of the
project's test suite, restated).

## Model

| member | source | states |
|---|---|---|
| JsValue.ObjectValues | src/matcher.js:12 | `Object.values` throws exactly on `undefined` and `null`; otherwise it lists exactly the object's field values, the array's elements or the string's one-code-unit characters (a character beyond U+FFFF is two surrogate halves that equal no model string) |
| Matcher.Matches | src/matcher.js:3-15 | the matcher throws exactly when the endpoint has a truthy cookie and the request's cookies are undefined or null; it accepts exactly when method is identical, the path test holds, and either the endpoint has no truthy cookie or its primitive cookie value is among the request's cookie values |
| Matcher.MethodMustBeIdentical | src/matcher.js:7 | a request whose method differs in any character, case included, is never accepted |
| Matcher.CookielessIgnoresCookies | src/matcher.js:8-11 | an endpoint with a falsy cookie decides on method and path alone, and any cookies (even missing ones) give the same verdict |
| Matcher.MissingCookiesThrow | src/matcher.js:10-12 | with cookies undefined or null, a cookie-bearing endpoint throws even when method or path fail |
| Matcher.MoreCookiesStillMatch | src/matcher.js:12 | cookies that list more values never turn an acceptance into a refusal |
| Matcher.CookieNamesIgnored | src/matcher.js:12 | two cookie objects holding the same values under any names give the same verdict |
| Registry.Prepend | src/Server.js:49 | registration puts the new endpoint first and keeps every old entry, in order, one place later |
| Registry.Reject | src/Server.js:63 | the filter throws exactly when some entry makes the matcher throw; otherwise every kept entry is one the request does not match, and every such entry of the list is kept as often as it occurs |
| Registry.RejectKeepsOrder | src/Server.js:63 | the kept entries form a subsequence of the list: stored order is preserved |
| Registry.NoHitLeavesListAlone | src/Server.js:63 | when the request matches no entry, the filter returns the list unchanged |
| Registry.RejectUnchangedIffNoHit | src/Server.js:63 | the filter returns the list unchanged if and only if the request matches none of its entries |
| Registry.RejectIdempotent | src/Server.js:63 | filtering the result again with the same request changes nothing |
| Registry.RejectLoop | src/Server.js:63 | the one-pass loop that collects declined entries and stops at the first throw computes the same result as the filter's definition |
| Registry.FindFirst | src/Server.js:69 | the lookup finds nothing exactly when no entry matches; a found entry matches and every entry before it declines; it throws exactly when an entry throws before any entry matches |
| Registry.NothingLeftToFind | src/Server.js:63-69 | after a successful filter, looking up the same request finds nothing |
| Registry.FindNothingIffRejectNothing | src/Server.js:63-69 | the lookup finds nothing if and only if the filter with the same request changes nothing |
| Registry.NewestMatchWins | src/Server.js:49-69 | a prepended endpoint that accepts the request is the one the lookup finds |
| Registry.NewestMissIsTransparent | src/Server.js:69 | a prepended endpoint that declines the request does not change what the lookup finds |
| JsValue.SurrogatePairsSplit | src/matcher.js:12 | `Object.values` of a one-emoji string lists nothing a stored string could equal, while `"ab"` lists `"a"` and `"b"` |
| Server.Start | src/Server.js:26 | a new server holds no endpoint and answers every live request with 404 |
| Server.GetEndpoints | src/Server.js:43-45 | the listing is the stored list unchanged with status 200, and every live reply with content is the response of an endpoint in that listing |
| Server.AddEndpoint | src/Server.js:47-52 | the list grows by one with the new endpoint first and the old list after it; the reply is the new listing with status 200 |
| Server.CriteriaRequest | src/Server.js:57-61 | the delete request's url is the body's `path` and its method the body's `method`; the cookie values it offers are exactly what `Object.values` lists for the body's cookie, whatever its kind (all field values of a descriptor object, the elements of an array, the code units of a string, nothing for a number or boolean), and reading them throws exactly when the body has no (or a null) cookie |
| Server.DeleteEndpoint | src/Server.js:54-66 | a delete throws exactly when the body has no (or a null) cookie and some stored endpoint has a truthy cookie, and then the list is unchanged; otherwise no kept entry matches the criteria, every stored entry the criteria do not match is kept as often as it occurs, and the reply is the new listing |
| Server.HandleRequest | src/Server.js:68-77 | the reply is 404 with the fixed message exactly when no entry matches; otherwise it is the status and content of the first matching entry |
| Server.FreshServerKnowsNothing | src/Server.js:26 | listing a new server gives status 200 and an empty list |
| Server.NewestRegistrationAnswers | src/Server.js:49-69 | after registering an endpoint, every request it accepts is answered with its response |
| Server.DeleteTwiceIsDeleteOnce | src/Server.js:63 | repeating a delete with the same body gives the same state and reply as the first |
| Server.DeleteNoHitIsNoOp | src/Server.js:63 | a delete succeeds and leaves the list unchanged if and only if the criteria match no stored entry |
| Server.DeleteKeepsOrder | src/Server.js:63 | the entries that survive a delete keep their stored order |
| Server.AnyDescriptorFieldDeletes | src/Server.js:57-63 | a cookie-bearing endpoint is deleted when any field of the delete descriptor equals its cookie value, whatever the descriptor's own `value` |
| Server.CookielessDeleteAborts | src/Server.js:57-63 | a delete without a cookie throws and deletes nothing when any stored endpoint carries a cookie, even one with another method and path |
| Server.LiveRequestsNeverThrow | src/Server.js:69 | the matcher never throws on a live request, since its cookies always form an object |
| Scenarios.PlainRequests | src/Server.spec.js:64-78 | a request to a registered path gets that endpoint's content; an unregistered path gets 404 |
| Scenarios.PlainDeletes | src/Server.spec.js:80-98 | deleting by path and method removes exactly that endpoint; an unknown path removes nothing |
| Scenarios.CookieRequests | src/Server.spec.js:121-140 | a request carrying the registered cookie value is answered with 200; another value under the same cookie name gets 404 |
| Scenarios.MatchingCookieDeletes | src/Server.spec.js:163-175 | deleting with the registered descriptor at its path removes that endpoint and keeps the other |
| Scenarios.UnmatchedCriteriaKeep | src/Server.spec.js:177-243 | criteria with a non-matching path, or with a descriptor of another value, delete nothing |
| Scenarios.DescriptorNameDeletes | src/Server.js:57-63 | a descriptor whose `name` equals the registered value deletes the endpoint although its `value` differs |
| Scenarios.EmojiStringCookieKeeps | src/Server.js:57-63 | a delete body whose cookie is the plain string of an emoji keeps an endpoint registered with that emoji as its value |

## Left out

- Express setup, `start`, `stop` and the listen callback (src/Server.js:8-20, 79-81). These are process and framework I/O.
- Routing (src/Server.js:34-40). The four handlers are modelled as separate entry points. The fact that `GET`, `POST` and `DELETE /endpoints` and every `OPTIONS` request never reach `handleRequest` is not modelled.
- CORS, body-parser and cookie-parser. The parsed body and the `req.cookies` object are inputs. Signed cookies are not modelled.
- path-to-regexp. It is the `PathTest` parameter, and the model does not re-implement template syntax. The library throws on a malformed template. That throw is not modelled: the parameter is a total predicate.
- Endpoint bodies whose `method` or `path` is not a string, or that have no `response`. The model types these fields strictly. In the source such a body is stored as it is and fails or throws later.
- Delete bodies without a string `path` or `method`. `DeleteBody` types both as strings. In the source a missing `path` makes `originalUrl` undefined, and the path test then runs against the text "undefined".
- JsValue.ObjectValues: strings are sequences of Unicode scalar values, so a string holding a lone surrogate (which `JSON.parse` can produce from an escape) is not representable; the surrogate halves of a character beyond U+FFFF are therefore left out of the listed values rather than modelled as strings.
- How Express renders a reply. `HandleRequest` returns the status and the content value. For example, `res.send` treats a number content specially, and that is not modelled.
- The reply to a delete call that throws. Express's error handler answers it. The model returns the `TypeError` and the unchanged list.
- JSON number precision. Numbers are reals, and the `Date.now()` expiry values of the tests are arbitrary reals.
- Duplicate keys in a JSON object. Objects are maps.
- The order of `Object.values`. Its only consumer is a membership test, so the model keeps a set.
- Concurrent requests. Each handler is one atomic step on the state.
- The test at src/Server.spec.js:18-24 stores bare strings as endpoints. The model's list holds endpoints only, so that test is not restated; `Server.GetEndpoints` states the same behaviour (the stored list, unchanged, with status 200) for any list of endpoints.
- Other keys of a registration body and of its `response`. The source stores the body as it is and every listing sends back all of its keys; the model keeps only `method`, `path`, `cookie`, `response.status` and `response.content`, so its listings do not echo any other key.
