/**
 The ordered endpoint list and the three things done to it: prepend a new
 endpoint, filter out every endpoint a request matches, and find the first
 endpoint a request matches. Both scans stop at the first throw of the
 matcher.
 */
module Registry {
  import opened Wrappers
  import opened JsValue
  import opened Matcher

  /** `a` is `b` with some entries left out and the rest in their order. */
  ghost predicate IsSubsequence(a: seq<Endpoint>, b: seq<Endpoint>)
    decreases |b|
  {
    if |a| == 0 then true
    else if |b| == 0 then false
    else (a[0] == b[0] && IsSubsequence(a[1..], b[1..])) || IsSubsequence(a, b[1..])
  }

  /** `endpoints.unshift(e)`: the new endpoint goes in front, the old ones
      follow in their order. */
  function Prepend(es: seq<Endpoint>, e: Endpoint): (r: seq<Endpoint>)
    ensures |r| == |es| + 1
    ensures r[0] == e
    ensures forall i :: 0 <= i < |es| ==> r[i + 1] == es[i]
  {
    [e] + es
  }

  /** `endpoints.filter(x => !requestMatcher(req)(x))`: the entries `req` does
      not match, in order, or the matcher's throw. */
  function Reject(test: PathTest, req: Request, es: seq<Endpoint>): (r: Result<seq<Endpoint>, TypeError>)
    decreases |es|
    ensures r.Err? <==> exists i :: 0 <= i < |es| && Matches(test, req, es[i]).Err?
    ensures r.Ok? ==> forall x :: x in r.value ==> Matches(test, req, x) == Ok(false)
    ensures r.Ok? ==> forall x :: Matches(test, req, x) == Ok(false) ==> multiset(r.value)[x] == multiset(es)[x]
  {
    if |es| == 0 then Ok([])
    else
      match Matches(test, req, es[0])
      case Err(err) => Err(err)
      case Ok(hit) =>
        var tail := Reject(test, req, es[1..]);
        assert es == [es[0]] + es[1..];
        assert forall i :: 1 <= i < |es| ==> es[i] == es[1..][i - 1];
        match tail
        case Err(err) => Err(err)
        case Ok(rest) =>
          if hit then Ok(rest)
          else Ok([es[0]] + rest)
  }

  /** Filtering keeps the surviving entries in their stored order. */
  lemma {:induction false} RejectKeepsOrder(test: PathTest, req: Request, es: seq<Endpoint>)
    requires Reject(test, req, es).Ok?
    ensures IsSubsequence(Reject(test, req, es).value, es)
    decreases |es|
  {
    if |es| > 0 {
      var rest := Reject(test, req, es[1..]).value;
      RejectKeepsOrder(test, req, es[1..]);
      if Matches(test, req, es[0]) == Ok(false) {
        assert ([es[0]] + rest)[1..] == rest;
      }
    }
  }

  /** `endpoints.find(requestMatcher(req))`: the first entry `req` matches,
      `None` when it matches none, or the throw of an entry reached before
      any match. */
  function FindFirst(test: PathTest, req: Request, es: seq<Endpoint>): (r: Result<Option<Endpoint>, TypeError>)
    decreases |es|
    ensures r == Ok(None) <==> forall i :: 0 <= i < |es| ==> Matches(test, req, es[i]) == Ok(false)
    ensures r.Ok? && r.value.Some? ==>
              exists i :: 0 <= i < |es| && es[i] == r.value.value && Matches(test, req, es[i]) == Ok(true)
                          && forall j :: 0 <= j < i ==> Matches(test, req, es[j]) == Ok(false)
    ensures r.Err? <==>
              exists i :: 0 <= i < |es| && Matches(test, req, es[i]).Err?
                          && forall j :: 0 <= j < i ==> Matches(test, req, es[j]) == Ok(false)
  {
    if |es| == 0 then Ok(None)
    else
      assert forall i :: 1 <= i < |es| ==> es[i] == es[1..][i - 1];
      match Matches(test, req, es[0])
      case Err(err) => Err(err)
      case Ok(true) => Ok(Some(es[0]))
      case Ok(false) => FindFirst(test, req, es[1..])
  }

  /** When the request matches none of the entries, filtering leaves the
      list as it was. */
  lemma {:induction false} NoHitLeavesListAlone(test: PathTest, req: Request, es: seq<Endpoint>)
    requires forall i :: 0 <= i < |es| ==> Matches(test, req, es[i]) == Ok(false)
    ensures Reject(test, req, es) == Ok(es)
    decreases |es|
  {
    if |es| > 0 {
      assert forall i :: 0 <= i < |es[1..]| ==> es[1..][i] == es[i + 1];
      NoHitLeavesListAlone(test, req, es[1..]);
      assert Matches(test, req, es[0]) == Ok(false);
      assert es == [es[0]] + es[1..];
    }
  }

  /** Filtering leaves the list as it was exactly when the request matches
      none of its entries. */
  lemma RejectUnchangedIffNoHit(test: PathTest, req: Request, es: seq<Endpoint>)
    ensures Reject(test, req, es) == Ok(es) <==> forall i :: 0 <= i < |es| ==> Matches(test, req, es[i]) == Ok(false)
  {
    if forall i :: 0 <= i < |es| ==> Matches(test, req, es[i]) == Ok(false) {
      NoHitLeavesListAlone(test, req, es);
    }
  }

  /** Filtering twice with the same request is filtering once. */
  lemma RejectIdempotent(test: PathTest, req: Request, es: seq<Endpoint>)
    requires Reject(test, req, es).Ok?
    ensures Reject(test, req, Reject(test, req, es).value) == Reject(test, req, es)
  {
  }

  /** After filtering, the same request finds nothing in what is left. */
  lemma NothingLeftToFind(test: PathTest, req: Request, es: seq<Endpoint>)
    requires Reject(test, req, es).Ok?
    ensures FindFirst(test, req, Reject(test, req, es).value) == Ok(None)
  {
  }

  /** Finding nothing and filtering to no effect say the same thing: the
      request matches no entry. */
  lemma FindNothingIffRejectNothing(test: PathTest, req: Request, es: seq<Endpoint>)
    ensures FindFirst(test, req, es) == Ok(None) <==> Reject(test, req, es) == Ok(es)
  {
    RejectUnchangedIffNoHit(test, req, es);
  }

  /** A newly prepended endpoint that accepts the request is the one found. */
  lemma NewestMatchWins(test: PathTest, req: Request, es: seq<Endpoint>, e: Endpoint)
    requires Matches(test, req, e) == Ok(true)
    ensures FindFirst(test, req, Prepend(es, e)) == Ok(Some(e))
  {
  }

  /** A newly prepended endpoint that declines the request changes nothing
      about which entry is found. */
  lemma NewestMissIsTransparent(test: PathTest, req: Request, es: seq<Endpoint>, e: Endpoint)
    requires Matches(test, req, e) == Ok(false)
    ensures FindFirst(test, req, Prepend(es, e)) == FindFirst(test, req, es)
  {
  }

  /** The filter as `Array.prototype.filter` runs it: one pass in stored
      order, collecting the entries the matcher declines, aborting on the
      first throw. */
  method RejectLoop(test: PathTest, req: Request, es: seq<Endpoint>) returns (r: Result<seq<Endpoint>, TypeError>)
    ensures r == Reject(test, req, es)
  {
    var kept: seq<Endpoint> := [];
    var i := 0;
    assert es[0..] == es;
    assert Reject(test, req, es).Ok? ==> [] + Reject(test, req, es).value == Reject(test, req, es).value;
    while i < |es|
      invariant 0 <= i <= |es|
      invariant Reject(test, req, es) == Then(kept, Reject(test, req, es[i..]))
      decreases |es| - i
    {
      assert es[i..][1..] == es[i + 1..];
      match Matches(test, req, es[i])
      case Err(err) =>
        return Err(err);
      case Ok(hit) =>
        if !hit {
          ThenAppend(kept, es[i], Reject(test, req, es[i + 1..]));
          kept := kept + [es[i]];
        }
      i := i + 1;
    }
    assert Reject(test, req, es[i..]) == Ok([]);
    assert kept + [] == kept;
    r := Ok(kept);
  }

  /** `kept` followed by what the rest of a filter yields. */
  function Then(kept: seq<Endpoint>, rest: Result<seq<Endpoint>, TypeError>): Result<seq<Endpoint>, TypeError> {
    match rest
    case Err(err) => Err(err)
    case Ok(tail) => Ok(kept + tail)
  }

  /** Appending one declined entry to `kept` commutes with the rest of the filter. */
  lemma ThenAppend(kept: seq<Endpoint>, x: Endpoint, rest: Result<seq<Endpoint>, TypeError>)
    ensures Then(kept, Then([x], rest)) == Then(kept + [x], rest)
  {
    if rest.Ok? {
      assert kept + ([x] + rest.value) == (kept + [x]) + rest.value;
    }
  }
}
