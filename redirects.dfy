/** `requestFollowRedirects(handler, request)`: issue the request, and while the
    response has status 301 (Moved Permanently, RFC 9110 section 15.4.2) or 302
    (Found, RFC 9110 section 15.4.3) and exactly one `location` value (RFC 9110
    section 10.2.2), replace the response by the result of following that
    location with a bare `{ url }` request.

    The request handler is a finite script: the n-th call to `handler.request`
    settles with the n-th reply. A script that runs out ends the run with
    `HandlerExhausted`, which stands for a handler that never answers. */
module Redirects {
  import opened Wrappers

  datatype Request = Request(
    httpMethod: Option<string>,
    url: string,
    headers: Option<map<string, string>>,
    body: Option<string>)

  datatype Response = Response(httpStatusCode: int, headers: map<string, seq<string>>, text: string)

  datatype Error =
    | Rejected(message: string) // `handler.request` rejects
    | LocationMissing           // a 301/302 without a `location` entry: `.length` of undefined throws
    | HandlerExhausted          // the scripted handler has no reply left

  type Reply = Result<Response, Error>

  /** The calls made to `handler.request`, how the whole call settles, and the
      replies not yet used. */
  datatype Run = Run(requests: seq<Request>, result: Result<Response, Error>, rest: seq<Reply>)

  predicate IsRedirectStatus(code: int) {
    code == 301 || code == 302
  }

  /** The `while` condition: `[301, 302].includes(status) && headers["location"].length === 1`;
      the second operand, evaluated only for a redirect status, throws when
      there is no `location` entry. */
  function ShouldFollow(response: Response): (r: Result<bool, Error>)
    ensures r == Success(true) <==>
              IsRedirectStatus(response.httpStatusCode) && "location" in response.headers &&
              |response.headers["location"]| == 1
    ensures r.Failure? <==> IsRedirectStatus(response.httpStatusCode) && "location" !in response.headers
    ensures r.Failure? ==> r.error == LocationMissing
  {
    if !IsRedirectStatus(response.httpStatusCode) then Success(false)
    else if "location" !in response.headers then Failure(LocationMissing)
    else Success(|response.headers["location"]| == 1)
  }

  /** The follow-up request carries the single location as its url and nothing else. */
  function FollowUp(response: Response): (r: Request)
    requires ShouldFollow(response) == Success(true)
    ensures r.url == response.headers["location"][0]
    ensures r.httpMethod.None? && r.headers.None? && r.body.None?
  {
    Request(None, response.headers["location"][0], None, None)
  }

  function Prepend(requests: seq<Request>, run: Run): Run {
    Run(requests + run.requests, run.result, run.rest)
  }

  // ---------------------------------------------------------------------------
  // Reference definition: one flat chain of requests

  /** The run after a response has been received, with `rest` left in the script. */
  function ChainFrom(response: Response, rest: seq<Reply>): (run: Run)
    ensures |run.requests| <= |rest|
    ensures ShouldFollow(response) != Success(true) ==> run.requests == [] && run.rest == rest
    decreases |rest|, 1
  {
    match ShouldFollow(response)
    case Failure(e) => Run([], Failure(e), rest)
    case Success(follow) => if follow then Chain(rest, FollowUp(response)) else Run([], Success(response), rest)
  }

  /** The run of a request issued against the script. */
  function Chain(script: seq<Reply>, request: Request): (run: Run)
    ensures |run.requests| <= |script|
    ensures |script| > 0 ==> |run.requests| >= 1 && run.requests[0] == request
    decreases |script|, 0
  {
    if |script| == 0 then Run([], Failure(HandlerExhausted), script)
    else match script[0]
      case Failure(e) => Run([request], Failure(e), script[1..])
      case Success(response) => Prepend([request], ChainFrom(response, script[1..]))
  }

  /** Every call consumes one reply, in order. */
  lemma {:induction false} ChainConsumes(script: seq<Reply>, request: Request)
    ensures |Chain(script, request).requests| <= |script|
    ensures Chain(script, request).rest == script[|Chain(script, request).requests|..]
    ensures Chain(script, request).result.Success? ==> |Chain(script, request).requests| >= 1
    decreases |script|
  {
    if |script| > 0 && script[0].Success? {
      var response := script[0].value;
      if ShouldFollow(response) == Success(true) {
        ChainConsumes(script[1..], FollowUp(response));
      }
    }
  }

  /** The returned response is never a 301 or 302 with exactly one location. */
  lemma {:induction false} ChainEndsOnFinalResponse(script: seq<Reply>, request: Request)
    requires Chain(script, request).result.Success?
    ensures ShouldFollow(Chain(script, request).result.value) == Success(false)
    decreases |script|
  {
    var response := script[0].value;
    if ShouldFollow(response) == Success(true) {
      ChainEndsOnFinalResponse(script[1..], FollowUp(response));
    }
  }

  /** The first call gets the caller's request unchanged; the i-th follow-up
      request is the bare location of the reply to call i - 1, whose status is
      301 or 302 with exactly one location. */
  lemma {:induction false} ChainRequests(script: seq<Reply>, request: Request, i: nat)
    requires i < |Chain(script, request).requests|
    ensures i < |script|
    ensures i == 0 ==> Chain(script, request).requests[0] == request
    ensures i > 0 ==> script[i - 1].Success? && ShouldFollow(script[i - 1].value) == Success(true) &&
                      Chain(script, request).requests[i] == FollowUp(script[i - 1].value)
    decreases |script|
  {
    ChainConsumes(script, request);
    if i > 0 {
      var response := script[0].value;
      if ShouldFollow(response) == Success(true) {
        var next := FollowUp(response);
        ChainConsumes(script[1..], next);
        if i > 1 {
          ChainRequests(script[1..], next, i - 1);
        } else {
          ChainRequests(script[1..], next, 0);
        }
      }
    }
  }

  /** A second request is issued exactly when the first reply is a 301 or 302
      with exactly one location (and the script has a reply for it). */
  lemma FollowedExactlyWhen(script: seq<Reply>, request: Request)
    requires |script| >= 2
    ensures |Chain(script, request).requests| >= 2 <==>
              script[0].Success? && ShouldFollow(script[0].value) == Success(true)
  {
    if script[0].Success? && ShouldFollow(script[0].value) == Success(true) {
      var next := FollowUp(script[0].value);
      assert |script[1..]| > 0;
      assert Chain(script[1..], next).requests != [];
    } else if script[0].Success? && ShouldFollow(script[0].value) == Success(false) {
      assert Chain(script, request).requests == [request];
    }
  }

  /** A reply that is not followed is returned unchanged after one request. */
  lemma NotFollowedReturnsReply(script: seq<Reply>, request: Request)
    requires |script| >= 1 && script[0].Success? && ShouldFollow(script[0].value) == Success(false)
    ensures Chain(script, request) == Run([request], Success(script[0].value), script[1..])
  {
  }

  /** A redirect status without a `location` entry is an error, not a clean stop. */
  lemma MissingLocationThrows(script: seq<Reply>, request: Request)
    requires |script| >= 1 && script[0].Success?
    requires IsRedirectStatus(script[0].value.httpStatusCode) && "location" !in script[0].value.headers
    ensures Chain(script, request) == Run([request], Failure(LocationMissing), script[1..])
  {
  }

  /** 301 -> 301 -> 200, one location each: three requests, the 200 is returned. */
  lemma TwoHopChain(a: string, b: string, request: Request)
    ensures var r1 := Response(301, map["location" := [a]], "");
            var r2 := Response(301, map["location" := [b]], "");
            var ok := Response(200, map[], "done");
            var run := Chain([Success(r1), Success(r2), Success(ok)], request);
            run.requests == [request, Request(None, a, None, None), Request(None, b, None, None)] &&
            run.result == Success(ok)
  {
    var r1 := Response(301, map["location" := [a]], "");
    var r2 := Response(301, map["location" := [b]], "");
    var ok := Response(200, map[], "done");
    var script := [Success(r1), Success(r2), Success(ok)];
    assert ShouldFollow(r1) == Success(true) && ShouldFollow(r2) == Success(true);
    assert ShouldFollow(ok) == Success(false);
    assert script[1..] == [Success(r2), Success(ok)];
    assert script[1..][1..] == [Success(ok)];
    assert Chain(script[1..][1..], FollowUp(r2)) == Run([FollowUp(r2)], Success(ok), []);
    assert Chain(script[1..], FollowUp(r1)) == Run([FollowUp(r1), FollowUp(r2)], Success(ok), []);
  }

  /** A 301 with two location values is returned unchanged after one request. */
  lemma AmbiguousLocationStops(a: string, b: string, request: Request, later: seq<Reply>)
    ensures var r := Response(301, map["location" := [a, b]], "");
            var run := Chain([Success(r)] + later, request);
            run.requests == [request] && run.result == Success(r)
  {
    var r := Response(301, map["location" := [a, b]], "");
    assert ([Success(r)] + later)[0] == Success(r);
  }

  // ---------------------------------------------------------------------------
  // The source's shape: a loop whose body is a recursive call

  /** `requestFollowRedirects(handler, request)` against the scripted handler. */
  method RequestFollowRedirects(script: seq<Reply>, request: Request)
    returns (requests: seq<Request>, result: Result<Response, Error>, rest: seq<Reply>)
    ensures Run(requests, result, rest) == Chain(script, request)
    decreases |script|
  {
    if |script| == 0 {
      return [], Failure(HandlerExhausted), script;
    }
    requests, rest := [request], script[1..];
    if script[0].Failure? {
      return requests, Failure(script[0].error), rest;
    }
    var response := script[0].value;
    while true
      invariant |rest| < |script|
      invariant Prepend(requests, ChainFrom(response, rest)) == Chain(script, request)
      decreases |rest|
    {
      var follow := ShouldFollow(response);
      if follow.Failure? {
        return requests, Failure(follow.error), rest;
      }
      if !follow.value {
        break;
      }
      var next := FollowUp(response);
      var more, sub, left := RequestFollowRedirects(rest, next);
      ChainConsumes(rest, next);
      requests := requests + more;
      if sub.Failure? {
        return requests, sub, left;
      }
      ChainEndsOnFinalResponse(rest, next);
      response, rest := sub.value, left;
    }
    return requests, Success(response), rest;
  }
}
