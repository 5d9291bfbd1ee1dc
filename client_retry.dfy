/** `Client._make_request` of `las/client.py`: the request it assembles and
    the two stacked `backoff.on_exception` decorators around it. The network
    is an input: `answers(n)` is what the n-th HTTP call of one logical
    request (counting from 0) ends in. Backoff delays are not modelled. */
module ClientRetry {
  import opened Wrappers
  import opened Json
  import opened Client

  /** `max_tries` of the outer decorator, which retries `TooManyRequestsException`. */
  const OuterMaxTries: nat := 4
  /** `max_tries` of the inner decorator, which retries `RequestException`. */
  const InnerMaxTries: nat := 3

  /** What `_make_request` reads from the client: `self.endpoint`,
      `self.credentials.access_token` and `self.credentials.api_key`. */
  datatype ClientConfig = ClientConfig(endpoint: string, accessToken: string, apiKey: string)

  /** The `requests` function passed in as `requests_fn`. */
  datatype Verb = Get | Post | Patch | Delete

  /** One HTTP call as `requests_fn` receives it. `data` is the JSON document
      that `json.dumps` serialises; the serialisation itself is not modelled. */
  datatype HttpRequest = HttpRequest(
    verb: Verb,
    url: string,
    headers: seq<(string, string)>,
    params: Option<Dict>,
    data: Option<Dict>)

  /** The value of the first header called `name`, if any. */
  function HeaderValue(headers: seq<(string, string)>, name: string): Option<string> {
    if headers == [] then None
    else if headers[0].0 == name then Some(headers[0].1)
    else HeaderValue(headers[1..], name)
  }

  /** The request one attempt of `_make_request` sends. */
  function PrepareRequest(c: ClientConfig, verb: Verb, path: string, body: Option<Dict>, params: Option<Dict>)
    : (req: HttpRequest)
    ensures req.verb == verb && req.url == c.endpoint + path
    ensures |req.headers| == 3
    ensures HeaderValue(req.headers, "Authorization") == Some("Bearer " + c.accessToken)
    ensures HeaderValue(req.headers, "X-Api-Key") == Some(c.apiKey)
    ensures HeaderValue(req.headers, "Content-Type") == Some("application/json")
    ensures req.data.Some? <==> body.Some?
    ensures req.data.Some? ==> req.data.value == body.value
    ensures req.params == params
  {
    var headers := [
      ("Authorization", "Bearer " + c.accessToken),
      ("X-Api-Key", c.apiKey),
      ("Content-Type", "application/json")
    ];
    assert HeaderValue(headers[2..], "Content-Type") == Some("application/json");
    HttpRequest(verb, c.endpoint + path, headers, params, if body.Some? then Some(body.value) else None)
  }

  /** Every HTTP call in `sent` sent `req`. */
  predicate AllSend(sent: seq<HttpRequest>, req: HttpRequest) {
    forall i :: 0 <= i < |sent| ==> sent[i] == req
  }

  /** How one HTTP call ends: with a response, or with a transport-level
      `RequestException` that carries the status of a response or none. */
  datatype Exchange = Answered(response: Response) | Failed(attached: Option<int>)

  /** One attempt: the HTTP call followed by `_json_decode`. */
  function AttemptResult(x: Exchange): Result<Json, Failure> {
    match x
    case Answered(r) => JsonDecode(r)
    case Failed(attached) => Failure(TransportError(attached))
  }

  /** The result of every attempt, indexed by HTTP call. */
  function Attempts(answers: nat -> Exchange): nat -> Result<Json, Failure> {
    (n: nat) => AttemptResult(answers(n))
  }

  /** What a run of attempts ends in, and how many HTTP calls it made. */
  datatype Run = Run(result: Result<Json, Failure>, calls: nat)

  /** `run`, preceded by `k` more HTTP calls. */
  function Shift(run: Run, k: nat): Run {
    Run(run.result, run.calls + k)
  }

  /** An attempt result the inner decorator retries: a request exception
      whose response has a status outside [400, 500). */
  predicate Retriable(r: Result<Json, Failure>) {
    r.Failure? && IsRequestException(r.error) && FatalCode(r.error) == Success(false)
  }

  /** The inner `on_exception(expo, RequestException, max_tries=3,
      giveup=_fatal_code)`, at its `tries`-th attempt, whose HTTP call is
      number `next`. `giveup` is asked before the attempt count, and an
      exception it raises itself replaces the one it was asked about. */
  function Inner(attempts: nat -> Result<Json, Failure>, next: nat, tries: nat): (run: Run)
    requires 1 <= tries <= InnerMaxTries
    decreases InnerMaxTries - tries
  {
    var r := attempts(next);
    if r.Success? || !IsRequestException(r.error) then Run(r, 1)
    else match FatalCode(r.error)
      case Failure(e) => Run(Failure(e), 1)
      case Success(fatal) =>
        if fatal || tries == InnerMaxTries then Run(r, 1)
        else Shift(Inner(attempts, next + 1, tries + 1), 1)
  }

  /** The outer decorator gives up on an inner run's result at its
      `tries`-th attempt: anything but `TooManyRequestsException` is final,
      and so is the fourth attempt. */
  predicate OuterGivesUp(r: Result<Json, Failure>, tries: nat) {
    r.Success? || r.error != TooManyRequests || tries == OuterMaxTries
  }

  /** The outer `on_exception(expo, TooManyRequestsException, max_tries=4)`
      around the inner decorator, at its `tries`-th attempt. */
  function Outer(attempts: nat -> Result<Json, Failure>, next: nat, tries: nat): (run: Run)
    requires 1 <= tries <= OuterMaxTries
    decreases OuterMaxTries - tries
  {
    var first := Inner(attempts, next, 1);
    if OuterGivesUp(first.result, tries) then first
    else Shift(Outer(attempts, next + first.calls, tries + 1), first.calls)
  }

  /** The inner decorator: attempts the call until it succeeds, fails with
      something other than a request exception, or `_fatal_code` or the
      budget of three attempts says to give up. */
  method InnerRetry(
    c: ClientConfig, verb: Verb, path: string, body: Option<Dict>, params: Option<Dict>,
    answers: nat -> Exchange, start: nat)
    returns (result: Result<Json, Failure>, sent: seq<HttpRequest>)
    ensures Run(result, |sent|) == Inner(Attempts(answers), start, 1)
    ensures AllSend(sent, PrepareRequest(c, verb, path, body, params))
  {
    ghost var attempts := Attempts(answers);
    sent := [];
    var tries := 0;
    while true
      invariant 0 <= tries < InnerMaxTries && |sent| == tries
      invariant AllSend(sent, PrepareRequest(c, verb, path, body, params))
      invariant Inner(attempts, start, 1) == Shift(Inner(attempts, start + tries, tries + 1), tries)
      decreases InnerMaxTries - tries
    {
      tries := tries + 1;
      sent := sent + [PrepareRequest(c, verb, path, body, params)];
      result := AttemptResult(answers(start + tries - 1));
      assert result == attempts(start + tries - 1);
      if result.Success? || !IsRequestException(result.error) {
        return;
      }
      var giveup := FatalCode(result.error);
      if giveup.Failure? {
        result := Failure(giveup.error);
        return;
      }
      if giveup.value || tries == InnerMaxTries {
        return;
      }
    }
  }

  /** The outer decorator at its `tries`-th attempt, whose first HTTP call
      is number `next`: it runs the inner decorator and starts over while
      that ends in `TooManyRequestsException`, four attempts in all. */
  method OuterRetry(
    c: ClientConfig, verb: Verb, path: string, body: Option<Dict>, params: Option<Dict>,
    answers: nat -> Exchange, next: nat, tries: nat)
    returns (result: Result<Json, Failure>, sent: seq<HttpRequest>)
    requires 1 <= tries <= OuterMaxTries
    ensures Run(result, |sent|) == Outer(Attempts(answers), next, tries)
    ensures AllSend(sent, PrepareRequest(c, verb, path, body, params))
    decreases OuterMaxTries - tries
  {
    ghost var attempts := Attempts(answers);
    var innerSent;
    result, innerSent := InnerRetry(c, verb, path, body, params, answers, next);
    if OuterGivesUp(result, tries) {
      OuterStop(attempts, next, tries, result, |innerSent|);
      sent := innerSent;
    } else {
      ghost var first := result;
      var rest;
      result, rest := OuterRetry(c, verb, path, body, params, answers, next + |innerSent|, tries + 1);
      OuterContinue(attempts, next, tries, first, |innerSent|, result, |rest|);
      AllSendAppend(innerSent, rest, PrepareRequest(c, verb, path, body, params));
      sent := innerSent + rest;
    }
  }

  /** `_make_request`: both decorators around one request, from the first
      HTTP call. Every HTTP call sends the same request, at most twelve times. */
  method MakeRequest(
    c: ClientConfig, verb: Verb, path: string, body: Option<Dict>, params: Option<Dict>,
    answers: nat -> Exchange)
    returns (result: Result<Json, Failure>, sent: seq<HttpRequest>)
    ensures Run(result, |sent|) == Outer(Attempts(answers), 0, 1)
    ensures 1 <= |sent| <= 12
    ensures AllSend(sent, PrepareRequest(c, verb, path, body, params))
  {
    result, sent := OuterRetry(c, verb, path, body, params, answers, 0, 1);
    AtMostTwelveCalls(Attempts(answers));
  }

  lemma AllSendAppend(a: seq<HttpRequest>, b: seq<HttpRequest>, req: HttpRequest)
    requires AllSend(a, req) && AllSend(b, req)
    ensures AllSend(a + b, req)
  {
  }

  /** `Outer` when it gives up after its first inner run. */
  lemma OuterStop(attempts: nat -> Result<Json, Failure>, next: nat, tries: nat, r: Result<Json, Failure>, k: nat)
    requires 1 <= tries <= OuterMaxTries
    requires Inner(attempts, next, 1) == Run(r, k)
    requires OuterGivesUp(r, tries)
    ensures Outer(attempts, next, tries) == Run(r, k)
  {
  }

  /** `Outer` when it retries after its first inner run of `k` calls. */
  lemma OuterContinue(
    attempts: nat -> Result<Json, Failure>, next: nat, tries: nat,
    r: Result<Json, Failure>, k: nat, last: Result<Json, Failure>, rest: nat)
    requires 1 <= tries <= OuterMaxTries
    requires Inner(attempts, next, 1) == Run(r, k)
    requires !OuterGivesUp(r, tries)
    requires Outer(attempts, next + k, tries + 1) == Run(last, rest)
    ensures Outer(attempts, next, tries) == Run(last, k + rest)
  {
  }

  /** The inner decorator makes at least one and at most its remaining
      budget of HTTP calls. */
  lemma {:induction false} InnerCalls(attempts: nat -> Result<Json, Failure>, next: nat, tries: nat)
    requires 1 <= tries <= InnerMaxTries
    ensures 1 <= Inner(attempts, next, tries).calls <= InnerMaxTries - tries + 1
    decreases InnerMaxTries - tries
  {
    if Retriable(attempts(next)) && tries < InnerMaxTries {
      InnerCalls(attempts, next + 1, tries + 1);
    }
  }

  /** Each outer attempt costs at most three HTTP calls. */
  lemma {:induction false} OuterCalls(attempts: nat -> Result<Json, Failure>, next: nat, tries: nat)
    requires 1 <= tries <= OuterMaxTries
    ensures 1 <= Outer(attempts, next, tries).calls <= 3 * (OuterMaxTries - tries + 1)
    decreases OuterMaxTries - tries
  {
    InnerCalls(attempts, next, 1);
    var first := Inner(attempts, next, 1);
    if OuterGivesUp(first.result, tries) {
      OuterStop(attempts, next, tries, first.result, first.calls);
    } else {
      OuterCalls(attempts, next + first.calls, tries + 1);
      var rest := Outer(attempts, next + first.calls, tries + 1);
      OuterContinue(attempts, next, tries, first.result, first.calls, rest.result, rest.calls);
    }
  }

  /** One logical request makes between 1 and 4 * 3 = 12 HTTP calls. */
  lemma AtMostTwelveCalls(attempts: nat -> Result<Json, Failure>)
    ensures 1 <= Outer(attempts, 0, 1).calls <= 12
  {
    OuterCalls(attempts, 0, 1);
  }

  /** A rate limit on every attempt: the outer decorator spends its whole
      budget, one HTTP call per attempt, and then raises. */
  lemma {:induction false} AlwaysTooManyRequests(attempts: nat -> Result<Json, Failure>, next: nat, tries: nat)
    requires 1 <= tries <= OuterMaxTries
    requires forall n: nat :: next <= n ==> attempts(n) == Failure(TooManyRequests)
    ensures Outer(attempts, next, tries) == Run(Failure(TooManyRequests), OuterMaxTries - tries + 1)
    decreases OuterMaxTries - tries
  {
    assert attempts(next) == Failure(TooManyRequests);
    assert Inner(attempts, next, 1) == Run(Failure(TooManyRequests), 1);
    if tries < OuterMaxTries {
      AlwaysTooManyRequests(attempts, next + 1, tries + 1);
    }
  }

  /** The rate-limit response of the tests. */
  const RateLimited: Response := Response(429, Parsed(JObject(map["message" := JStr("Too Many Requests")])))

  lemma RateLimitedDecodes()
    ensures AttemptResult(Answered(RateLimited)) == Failure(TooManyRequests)
  {
    var m := map["message" := JStr("Too Many Requests")];
    assert JStr("Too Many Requests") == m["message"];
  }

  /** Every HTTP call answered with the rate-limit response: exactly four
      calls, then `TooManyRequestsException`. */
  lemma RateLimitedFourTimes(answers: nat -> Exchange)
    requires forall n: nat :: answers(n) == Answered(RateLimited)
    ensures Outer(Attempts(answers), 0, 1) == Run(Failure(TooManyRequests), 4)
  {
    RateLimitedDecodes();
    AlwaysTooManyRequests(Attempts(answers), 0, 1);
  }

  /** A first attempt that succeeds, or fails with anything neither decorator
      retries (a typed exception other than the rate limit, a 4xx HTTPError,
      a decode error), ends the request after one HTTP call. */
  lemma FirstAttemptFinal(attempts: nat -> Result<Json, Failure>, next: nat, tries: nat)
    requires 1 <= tries <= OuterMaxTries
    requires var r := attempts(next);
      || r.Success?
      || (!IsRequestException(r.error) && r.error != TooManyRequests)
      || (r.error.HttpError? && 400 <= r.error.status < 500)
    ensures Outer(attempts, next, tries) == Run(attempts(next), 1)
  {
  }

  /** A transport error that carries no response makes `_fatal_code` itself
      raise: the request ends after one call with an `AttributeError`. */
  lemma TransportFailureNotRetried(answers: nat -> Exchange, next: nat, tries: nat)
    requires 1 <= tries <= OuterMaxTries
    requires answers(next) == Failed(None)
    ensures Outer(Attempts(answers), next, tries) == Run(Failure(AttributeError), 1)
  {
    assert Attempts(answers)(next) == Failure(TransportError(None));
  }

  /** A status in [500, 600) comes back as a retriable HTTPError. */
  lemma ServerErrorRetriable(r: Response)
    requires 500 <= r.status < 600
    ensures AttemptResult(Answered(r)) == Failure(HttpError(r.status))
    ensures Retriable(AttemptResult(Answered(r)))
  {
  }

  /** Three retriable failures in a row exhaust the inner budget: the third
      is raised, and the outer decorator does not retry it. */
  lemma ThreeRetriableFailures(attempts: nat -> Result<Json, Failure>, next: nat, tries: nat)
    requires 1 <= tries <= OuterMaxTries
    requires Retriable(attempts(next))
    requires Retriable(attempts(next + 1))
    requires Retriable(attempts(next + 2))
    ensures Outer(attempts, next, tries) == Run(attempts(next + 2), 3)
  {
    assert Inner(attempts, next + 2, 3) == Run(attempts(next + 2), 1);
    assert Inner(attempts, next + 1, 2) == Run(attempts(next + 2), 2);
    assert Inner(attempts, next, 1) == Run(attempts(next + 2), 3);
  }

  /** Two server errors then a rate limit in each of the first three outer
      attempts, and three server errors in the last: the bound of twelve
      calls is reached. */
  lemma WorstCaseTwelveCalls(answers: nat -> Exchange)
    requires forall n: nat :: answers(n) == (if n % 3 == 2 && n < 9 then Answered(RateLimited) else Answered(Response(500, Unparsable)))
    ensures Outer(Attempts(answers), 0, 1) == Run(Failure(HttpError(500)), 12)
  {
    var attempts := Attempts(answers);
    RateLimitedDecodes();
    ServerErrorRetriable(Response(500, Unparsable));
    forall k | 0 <= k < 3
      ensures Inner(attempts, 3 * k, 1) == Run(Failure(TooManyRequests), 3)
    {
      assert attempts(3 * k) == Failure(HttpError(500));
      assert attempts(3 * k + 1) == Failure(HttpError(500));
      assert attempts(3 * k + 2) == Failure(TooManyRequests);
      assert Inner(attempts, 3 * k + 2, 3) == Run(Failure(TooManyRequests), 1);
    }
    assert Inner(attempts, 0, 1) == Run(Failure(TooManyRequests), 3);
    assert Inner(attempts, 3, 1) == Run(Failure(TooManyRequests), 3);
    assert Inner(attempts, 6, 1) == Run(Failure(TooManyRequests), 3);
    assert attempts(9) == Failure(HttpError(500));
    assert attempts(10) == Failure(HttpError(500));
    assert attempts(11) == Failure(HttpError(500));
    ThreeRetriableFailures(attempts, 9, 4);
  }
}
