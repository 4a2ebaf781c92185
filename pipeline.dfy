/** The hook logic of a request, as values: how the registered processors are ordered
    and applied, how the validations and the retry conditions are scanned, and how the
    success/failure response variant picks its handler. The `Request` class (module Api)
    runs these on its own state. */
module Pipeline {
  import opened Wrappers
  import opened Errors
  import opened Http

  /** `Serializer`: the parameters as an optional payload, or the error it throws. */
  type Serializer<!P> = P -> Result<Option<Data>, Error>

  /** `Deserializer`: the typed result, or the error it throws. */
  type Deserializer<!P, R> = (P, URLRequest, Response, Option<Data>) -> Result<R, Error>

  /** `Validation`: `Some(e)` when it throws `e`. */
  type Validation<!P> = (P, URLRequest, Response, Option<Data>) -> Option<Error>

  /** `RetryCondition`: its answer, or the error it throws. Its last argument is the
      number of retries made so far. */
  type RetryCondition<!P, !R> =
    (P, Option<URLRequest>, Option<Response>, Option<Data>, Option<R>, Option<Error>, nat) -> Result<bool, Error>

  /** A processor registered with `process(priority:processor:)`: its priority and its
      effect on the outbound description (the mutated description, or the error it throws). */
  datatype Processor = Processor(priority: Priority, apply: URLRequest -> Result<URLRequest, Error>)

  /** The five transient outcome properties of a request: `request`, `response`,
      `responseData`, `result` and `error`. */
  datatype Outcome<R> = Outcome(
    request: Option<URLRequest>,
    response: Option<Response>,
    responseData: Option<Data>,
    result: Option<R>,
    error: Option<Error>)

  // ---------------------------------------------------------------------------------
  // Processors

  /** The order `sortInPlace { $0.priority.rawValue > $1.priority.rawValue }` establishes:
      non-increasing raw priority. Nothing is said about the order of equal priorities. */
  ghost predicate ByDescendingPriority(ps: seq<Processor>)
  {
    forall i, j :: 0 <= i < j < |ps| ==> ps[i].priority.RawValue() >= ps[j].priority.RawValue()
  }

  /** `ps` is the registered list `registered`, rearranged by descending priority. */
  ghost predicate Arranged(ps: seq<Processor>, registered: seq<Processor>)
  {
    ByDescendingPriority(ps) && multiset(ps) == multiset(registered)
  }

  /** Placing `x` at `j`, after every entry of higher or equal priority and before every
      entry of lower priority, keeps the list ordered. */
  lemma InsertKeepsOrder(r: seq<Processor>, j: nat, x: Processor)
    requires j <= |r| && ByDescendingPriority(r)
    requires j > 0 ==> r[j - 1].priority.RawValue() >= x.priority.RawValue()
    requires forall k :: j <= k < |r| ==> r[k].priority.RawValue() < x.priority.RawValue()
    ensures ByDescendingPriority(r[..j] + [x] + r[j..])
  {
    var s := r[..j] + [x] + r[j..];
    assert forall k :: 0 <= k < j ==> s[k] == r[k];
    assert s[j] == x;
    assert forall k :: j < k < |s| ==> s[k] == r[k - 1];
  }

  lemma InsertAddsOne(r: seq<Processor>, j: nat, x: Processor)
    requires j <= |r|
    ensures multiset(r[..j] + [x] + r[j..]) == multiset(r) + multiset{x}
  {
    assert r == r[..j] + r[j..];
  }

  /** One insertion step: `x` goes after every entry of higher or equal priority. */
  method InsertByPriority(r: seq<Processor>, x: Processor) returns (r': seq<Processor>)
    requires ByDescendingPriority(r)
    ensures ByDescendingPriority(r')
    ensures multiset(r') == multiset(r) + multiset{x}
  {
    var j := |r|;
    while j > 0 && r[j - 1].priority.RawValue() < x.priority.RawValue()
      invariant 0 <= j <= |r|
      invariant forall k :: j <= k < |r| ==> r[k].priority.RawValue() < x.priority.RawValue()
    {
      j := j - 1;
    }
    InsertKeepsOrder(r, j, x);
    InsertAddsOne(r, j, x);
    r' := r[..j] + [x] + r[j..];
  }

  /** The sort of `process(_:)`, as an insertion sort. */
  method SortByPriority(ps: seq<Processor>) returns (r: seq<Processor>)
    ensures Arranged(r, ps)
  {
    r := [];
    for i := 0 to |ps|
      invariant ByDescendingPriority(r)
      invariant multiset(r) == multiset(ps[..i])
    {
      r := InsertByPriority(r, ps[i]);
      assert ps[..i + 1] == ps[..i] + [ps[i]];
    }
    assert ps[..|ps|] == ps;
  }

  /** Running the processors of `ps` one after the other on `q`. */
  function Applied(ps: seq<Processor>, q: URLRequest): Result<URLRequest, Error>
    decreases |ps|
  {
    if ps == [] then Ok(q)
    else
      match Applied(ps[..|ps| - 1], q)
      case Err(e) => Err(e)
      case Ok(q') => ps[|ps| - 1].apply(q')
  }

  /** Processor `k` of `ps` is reached (every earlier one succeeded) and throws `e`. */
  ghost predicate ThrowsAt(ps: seq<Processor>, q: URLRequest, k: nat, e: Error)
    requires k < |ps|
  {
    Applied(ps[..k], q).Ok? && ps[k].apply(Applied(ps[..k], q).value) == Err(e)
  }

  /** Once a processor has thrown, the ones after it do not run. */
  lemma {:induction false} ThrowStopsTheRest(ps: seq<Processor>, q: URLRequest, k: nat)
    requires k <= |ps| && Applied(ps[..k], q).Err?
    ensures Applied(ps, q) == Applied(ps[..k], q)
    decreases |ps| - k
  {
    if k < |ps| {
      var front := ps[..|ps| - 1];
      assert front[..k] == ps[..k];
      ThrowStopsTheRest(front, q, k);
      assert ps[..|ps|] == ps;
    } else {
      assert ps[..k] == ps;
    }
  }

  /** Assembly fails with `e` exactly when some reached processor throws `e`. */
  lemma {:induction false} FirstThrowWins(ps: seq<Processor>, q: URLRequest, e: Error)
    ensures Applied(ps, q) == Err(e) <==> exists k :: 0 <= k < |ps| && ThrowsAt(ps, q, k, e)
    decreases |ps|
  {
    if ps != [] {
      var n := |ps| - 1;
      var front := ps[..n];
      if Applied(ps, q) == Err(e) {
        if Applied(front, q).Err? {
          FirstThrowWins(front, q, e);
          var k :| 0 <= k < |front| && ThrowsAt(front, q, k, e);
          assert front[..k] == ps[..k];
          assert ThrowsAt(ps, q, k, e);
        } else {
          assert ThrowsAt(ps, q, n, e);
        }
      }
      if exists k :: 0 <= k < |ps| && ThrowsAt(ps, q, k, e) {
        var k :| 0 <= k < |ps| && ThrowsAt(ps, q, k, e);
        var upTo := ps[..k + 1];
        assert upTo[..k] == ps[..k];
        assert Applied(upTo, q) == Err(e);
        ThrowStopsTheRest(ps, q, k + 1);
      }
    }
  }

  /** The loop of `process(_:)`: each processor in turn, stopping at the first that throws. */
  method RunProcessors(ps: seq<Processor>, q: URLRequest) returns (out: Result<URLRequest, Error>)
    ensures out == Applied(ps, q)
  {
    out := Ok(q);
    var i := 0;
    while i < |ps|
      invariant 0 <= i <= |ps|
      invariant out.Ok? && out == Applied(ps[..i], q)
    {
      assert ps[..i + 1][..i] == ps[..i];
      out := ps[i].apply(out.value);
      if out.Err? {
        ThrowStopsTheRest(ps, q, i + 1);
        return;
      }
      i := i + 1;
    }
    assert ps[..|ps|] == ps;
  }

  /** `generateURLRequest()`: serialize the parameters, describe the request, then run the
      processors in the order given. */
  function Assemble<P>(serialize: Serializer<P>, parameters: P, verb: Method, url: string,
                       ordered: seq<Processor>): (r: Result<URLRequest, Error>)
    ensures serialize(parameters).Err? ==> r == Err(serialize(parameters).error)
    ensures serialize(parameters).Ok? ==> r == Applied(ordered, Describe(verb, url, serialize(parameters).value))
    ensures ordered == [] && serialize(parameters).Ok? ==>
              r.Ok? && r.value.body == serialize(parameters).value && r.value.url == url
  {
    match serialize(parameters)
    case Err(e) => Err(e)
    case Ok(body) => Applied(ordered, Describe(verb, url, body))
  }

  // ---------------------------------------------------------------------------------
  // Validations

  /** Every validation before index `k` passes. */
  ghost predicate PassBefore<P>(vs: seq<Validation<P>>, k: nat, p: P, q: URLRequest, resp: Response, data: Option<Data>)
    requires k <= |vs|
  {
    forall j :: 0 <= j < k ==> vs[j](p, q, resp, data).None?
  }

  /** The error of the first validation that throws, if any. */
  function FirstFailure<P>(vs: seq<Validation<P>>, p: P, q: URLRequest, resp: Response, data: Option<Data>): (r: Option<Error>)
    ensures r.None? <==> forall k :: 0 <= k < |vs| ==> vs[k](p, q, resp, data).None?
    ensures r.Some? ==> exists k :: 0 <= k < |vs| && PassBefore(vs, k, p, q, resp, data) && vs[k](p, q, resp, data) == r
    decreases |vs|
  {
    if vs == [] then None
    else if vs[0](p, q, resp, data).Some? then vs[0](p, q, resp, data)
    else
      var r := FirstFailure(vs[1..], p, q, resp, data);
      assert forall k :: 1 <= k < |vs| ==> vs[k] == vs[1..][k - 1];
      r
  }

  /** The validation at `k` is the first that throws, so its error is the one reported. */
  lemma {:induction false} FirstFailureAt<P>(vs: seq<Validation<P>>, k: nat, p: P, q: URLRequest, resp: Response, data: Option<Data>)
    requires k < |vs| && PassBefore(vs, k, p, q, resp, data) && vs[k](p, q, resp, data).Some?
    ensures FirstFailure(vs, p, q, resp, data) == vs[k](p, q, resp, data)
    decreases k
  {
    if k > 0 {
      assert vs[1..][k - 1] == vs[k];
      assert PassBefore(vs[1..], k - 1, p, q, resp, data) by {
        forall j | 0 <= j < k - 1 ensures vs[1..][j](p, q, resp, data).None? {
          assert vs[1..][j] == vs[j + 1];
        }
      }
      FirstFailureAt(vs[1..], k - 1, p, q, resp, data);
    }
  }

  /** The loop of `processRequestResult`: every validation in order, stopping at the
      first that throws. */
  method RunValidations<P>(vs: seq<Validation<P>>, p: P, q: URLRequest, resp: Response, data: Option<Data>)
    returns (err: Option<Error>)
    ensures err == FirstFailure(vs, p, q, resp, data)
  {
    for i := 0 to |vs|
      invariant PassBefore(vs, i, p, q, resp, data)
    {
      err := vs[i](p, q, resp, data);
      if err.Some? {
        FirstFailureAt(vs, i, p, q, resp, data);
        return;
      }
    }
    err := None;
  }

  /** `processRequestResult`: the outcome after the transport reported `o`. */
  function Resolve<P, R>(vs: seq<Validation<P>>, deserialize: Deserializer<P, R>, p: P, o: Outcome<R>): (r: Outcome<R>)
    // only the error and the result are ever touched
    ensures r.(error := o.error, result := o.result) == o
    // a recorded error short-circuits everything
    ensures o.error.Some? ==> r == o
    ensures o.error.None? && (o.request.None? || o.response.None?) ==>
              r == o.(error := Some(RequestFailure))
    ensures o.error.None? && o.request.Some? && o.response.Some? ==>
              var args := (p, o.request.value, o.response.value, o.responseData);
              // the first failing validation's error is recorded, and the deserializer does not run
              && ((exists k :: 0 <= k < |vs| && vs[k](args.0, args.1, args.2, args.3).Some?) ==>
                    r.result == o.result &&
                    exists k :: 0 <= k < |vs| && PassBefore(vs, k, args.0, args.1, args.2, args.3) &&
                                vs[k](args.0, args.1, args.2, args.3).Some? &&
                                r.error == vs[k](args.0, args.1, args.2, args.3))
              // only when every validation passes does the deserializer decide the outcome
              && ((forall k :: 0 <= k < |vs| ==> vs[k](args.0, args.1, args.2, args.3).None?) ==>
                    match deserialize(args.0, args.1, args.2, args.3)
                    case Ok(x) => r == o.(result := Some(x))
                    case Err(e) => r == o.(error := Some(e)))
  {
    if o.error.Some? then o
    else if o.request.None? || o.response.None? then o.(error := Some(RequestFailure))
    else
      var (q, resp, data) := (o.request.value, o.response.value, o.responseData);
      match FirstFailure(vs, p, q, resp, data)
      case Some(e) => o.(error := Some(e))
      case None =>
        match deserialize(p, q, resp, data)
        case Ok(x) => o.(result := Some(x))
        case Err(e) => o.(error := Some(e))
  }

  // ---------------------------------------------------------------------------------
  // Retry conditions

  /** What the retry evaluation concludes: re-dispatch, complete with the current outcome,
      or complete with the error a condition threw. */
  datatype Decision = Retry | Finish | Abort(error: Error)

  function Ask<P, R>(c: RetryCondition<P, R>, p: P, o: Outcome<R>, retryTimes: nat): Result<bool, Error>
  {
    c(p, o.request, o.response, o.responseData, o.result, o.error, retryTimes)
  }

  /** Every condition before index `k` answers false. */
  ghost predicate FalseBefore<P, R>(cs: seq<RetryCondition<P, R>>, k: nat, p: P, o: Outcome<R>, retryTimes: nat)
    requires k <= |cs|
  {
    forall j :: 0 <= j < k ==> Ask(cs[j], p, o, retryTimes) == Ok(false)
  }

  /** The scan of `retryOrComplete`: the first condition that answers true or throws decides. */
  function Decide<P, R>(cs: seq<RetryCondition<P, R>>, p: P, o: Outcome<R>, retryTimes: nat): (d: Decision)
    ensures d == Finish <==> forall k :: 0 <= k < |cs| ==> Ask(cs[k], p, o, retryTimes) == Ok(false)
    ensures d == Retry ==>
              exists k :: 0 <= k < |cs| && FalseBefore(cs, k, p, o, retryTimes) && Ask(cs[k], p, o, retryTimes) == Ok(true)
    ensures d.Abort? ==>
              exists k :: 0 <= k < |cs| && FalseBefore(cs, k, p, o, retryTimes) && Ask(cs[k], p, o, retryTimes) == Err(d.error)
    decreases |cs|
  {
    if cs == [] then Finish
    else
      match Ask(cs[0], p, o, retryTimes)
      case Err(e) => Abort(e)
      case Ok(true) => Retry
      case Ok(false) =>
        var d := Decide(cs[1..], p, o, retryTimes);
        assert forall k :: 1 <= k < |cs| ==> cs[k] == cs[1..][k - 1];
        d
  }

  /** The condition at `k` is the first that does not answer false, so it decides. */
  lemma {:induction false} DecidedAt<P, R>(cs: seq<RetryCondition<P, R>>, k: nat, p: P, o: Outcome<R>, retryTimes: nat)
    requires k < |cs| && FalseBefore(cs, k, p, o, retryTimes) && Ask(cs[k], p, o, retryTimes) != Ok(false)
    ensures Decide(cs, p, o, retryTimes) ==
              match Ask(cs[k], p, o, retryTimes)
              case Ok(_) => Retry
              case Err(e) => Abort(e)
    decreases k
  {
    if k > 0 {
      assert cs[1..][k - 1] == cs[k];
      assert FalseBefore(cs[1..], k - 1, p, o, retryTimes) by {
        forall j | 0 <= j < k - 1 ensures Ask(cs[1..][j], p, o, retryTimes) == Ok(false) {
          assert cs[1..][j] == cs[j + 1];
        }
      }
      DecidedAt(cs[1..], k - 1, p, o, retryTimes);
    }
  }

  /** The background block of `retryOrComplete`: the conditions in order, stopping at the
      first that answers true or throws. */
  method ScanConditions<P, R>(cs: seq<RetryCondition<P, R>>, p: P, o: Outcome<R>, retryTimes: nat) returns (d: Decision)
    ensures d == Decide(cs, p, o, retryTimes)
  {
    var isRetryable := false;
    var err: Option<Error> := None;
    var i := 0;
    while i < |cs|
      invariant 0 <= i <= |cs|
      invariant FalseBefore(cs, i, p, o, retryTimes)
    {
      var answer := Ask(cs[i], p, o, retryTimes);
      if answer.Err? {
        err := Some(answer.error);
        DecidedAt(cs, i, p, o, retryTimes);
        break;
      } else if answer.value {
        isRetryable := true;
        DecidedAt(cs, i, p, o, retryTimes);
        break;
      }
      i := i + 1;
    }
    d := if err.Some? then Abort(err.value) else if isRetryable then Retry else Finish;
  }

  // ---------------------------------------------------------------------------------
  // The success/failure response variant

  /** What the `response(successHandler:failureHandler:)` variant does with an outcome. */
  datatype Delivery<P, R> =
      /** a plain `response(completionHandler:)` handler called with the request */
    | Notified(handler: nat)
    | Succeeded(handler: nat, parameters: P, request: URLRequest, response: Response,
                responseData: Option<Data>, result: R)
      /** the failure handler, given whatever partial outcome there is and the error */
    | Failed(handler: nat, parameters: P, partial: Outcome<R>, error: Error)
      /** an error is present but no failure handler was given: nothing is called */
    | Unhandled(error: Error)
      /** no error, yet the request, the response or the result is absent: the forced
          unwraps of the success branch trap */
    | Trapped

  function Route<P, R>(success: nat, failure: Option<nat>, p: P, o: Outcome<R>): (d: Delivery<P, R>)
    ensures (d.Failed? || d.Unhandled?) <==> o.error.Some?
    ensures d.Failed? <==> o.error.Some? && failure.Some?
    ensures d.Failed? ==>
              d == Failed(failure.value, p, o, o.error.value)
    ensures d.Succeeded? <==> o.error.None? && o.request.Some? && o.response.Some? && o.result.Some?
    ensures d.Succeeded? ==>
              d.handler == success && d.parameters == p && o.request == Some(d.request) &&
              o.response == Some(d.response) && d.responseData == o.responseData && o.result == Some(d.result)
    ensures d.Unhandled? ==> d.error == o.error.value
    ensures !d.Notified?
  {
    if o.error.Some? then
      if failure.Some? then
        Failed(failure.value, p, o, o.error.value)
      else Unhandled(o.error.value)
    else if o.request.Some? && o.response.Some? && o.result.Some? then
      Succeeded(success, p, o.request.value, o.response.value, o.responseData, o.result.value)
    else Trapped
  }
}
