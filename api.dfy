/** The lifecycle of one request (API/Request.swift) and the registry of live requests a
    manager keeps (Manager.swift).

    Each asynchronous hop of the source is an event method the environment invokes when
    that hop's continuation runs: `PreprocessDone` (the preprocess step finished),
    `TransportDone` (the transport callback), `EvaluateRetry` (the background scan of the
    retry conditions), `RetryDecided` (its continuation) and `RunQueued` (the next
    operation of the serial queue that is released on completion). The field `awaiting`
    records which of these continuations is outstanding; there is never more than one. */
module Api {
  import opened Wrappers
  import opened Errors
  import opened Http
  import opened Pipeline

  /** An interceptor: a closure of the application, known by its identity, or one of the
      two hooks `Manager.request` installs on every request it creates. */
  datatype Interceptor<!P, !R> =
    | Client(id: nat)
      /** the before-calling hook: append the request to the manager's list */
    | Track(manager: Manager<P, R>)
      /** the completion hook: remove the request from the manager's list */
    | Untrack(manager: Manager<P, R>)

  /** An operation on the request's serial queue. */
  datatype Operation<!P, !R> =
      /** a completion interceptor, enqueued by the `completed` setter */
    | Intercept(interceptor: Interceptor<P, R>)
      /** `response(queue:completionHandler:)` with a handler that receives the whole request */
    | Handle(handler: nat)
      /** `response(queue:successHandler:failureHandler:)` */
    | Split(success: nat, failure: Option<nat>)
      /** the response handler `Manager.request` installs, which reads the response to
          update the shared server time */
    | RecordServerTime

  /** The request's private serial queue: suspended until the request completes (the
      `completed` property is `!suspended`), with the operations not yet run, in order. */
  datatype OperationQueue<!P, !R> = OperationQueue(suspended: bool, operations: seq<Operation<P, R>>)

  /** What running an interceptor or an operation is observed to do. */
  datatype Event<!P, !R> =
    | Intercepted(interceptor: Interceptor<P, R>)
    | Delivered(delivery: Delivery<P, R>)
    | ServerTimeRead(response: Option<Response>)

  /** The continuation an asynchronous hop will deliver. A transport task exists
      (`requestTask != nil`) exactly while it is `Transport`. */
  datatype Await =
    | Idle
    | Preprocessing
    | Transport(sent: URLRequest)
    | RetryEvaluation
    | RetryContinuation(decision: Decision)

  /** Every mutable field of a request, as one value. */
  datatype State<!P, !R> = State(
    hasPreprocess: bool,
    called: bool,
    cancelled: bool,
    processors: seq<Processor>,
    beforeCallingInterceptors: seq<Interceptor<P, R>>,
    afterCallingInterceptors: seq<Interceptor<P, R>>,
    completionInterceptors: seq<Interceptor<P, R>>,
    validations: seq<Validation<P>>,
    retryTimes: nat,
    retryConditions: seq<RetryCondition<P, R>>,
    queue: OperationQueue<P, R>,
    outcome: Outcome<R>,
    awaiting: Await,
    trace: seq<Event<P, R>>)

  /** A request as `init` leaves it. */
  function Initial<P, R>(): (s: State<P, R>)
    ensures Consistent(s) && !s.called && !s.cancelled && s.queue.suspended
  {
    State(false, false, false, [], [], [], [], [], 0, [],
          OperationQueue(true, []), Outcome(None, None, None, None, None), Idle, [])
  }

  /** What every reachable request state satisfies. None of it is stated in the source; it
      follows from how the methods use the fields. */
  ghost predicate Consistent<P, R>(s: State<P, R>)
  {
    // before dispatch no continuation and no retry exist
    && (!s.called ==> s.awaiting == Idle && s.retryTimes == 0)
    // dispatch drained the before- and after-calling lists, and they are closed since
    && (s.called ==> s.beforeCallingInterceptors == [] && s.afterCallingInterceptors == [])
    // the Manager's tracking hook is only ever a before-calling interceptor
    && (forall i :: i in s.afterCallingInterceptors ==> i.Client?)
    && (forall i :: i in s.completionInterceptors ==> !i.Track?)
    && (forall op :: op in s.queue.operations ==> !(op.Intercept? && op.interceptor.Track?))
  }

  /** The completion interceptors as queue operations, in order. */
  function Enqueued<P, R>(hooks: seq<Interceptor<P, R>>): (ops: seq<Operation<P, R>>)
    ensures |ops| == |hooks| && forall k :: 0 <= k < |hooks| ==> ops[k] == Intercept(hooks[k])
  {
    seq(|hooks|, k requires 0 <= k < |hooks| => Intercept(hooks[k]))
  }

  /** Interceptors as the events of running them, in order. */
  function Intercepts<P, R>(hooks: seq<Interceptor<P, R>>): (es: seq<Event<P, R>>)
    ensures |es| == |hooks| && forall k :: 0 <= k < |hooks| ==> es[k] == Intercepted(hooks[k])
  {
    seq(|hooks|, k requires 0 <= k < |hooks| => Intercepted(hooks[k]))
  }

  lemma InterceptsAppend<P, R>(a: seq<Interceptor<P, R>>, b: seq<Interceptor<P, R>>)
    ensures Intercepts(a + b) == Intercepts(a) + Intercepts(b)
  {
    assert forall k :: 0 <= k < |a| + |b| ==> Intercepts(a + b)[k] == (Intercepts(a) + Intercepts(b))[k];
  }

  /** The `completed` setter given `true`: the queue is released and every pending
      completion interceptor is enqueued on it, once, in registration order. */
  function Completing<P, R>(s: State<P, R>): State<P, R>
  {
    s.(queue := OperationQueue(false, s.queue.operations + Enqueued(s.completionInterceptors)),
       completionInterceptors := [])
  }

  /** `retryOrComplete`: complete at once when there are no retry conditions, otherwise
      start their evaluation. */
  function Finishing<P, R>(s: State<P, R>): State<P, R>
  {
    if s.retryConditions == [] then Completing(s) else s.(awaiting := RetryEvaluation)
  }

  /** `clearRequestResult`. */
  function Cleared<P, R>(s: State<P, R>): State<P, R>
  {
    s.(outcome := Outcome(None, None, None, None, None))
  }

  /** `cancel()`. */
  function Cancelling<P, R>(s: State<P, R>): State<P, R>
  {
    if s.cancelled || !s.queue.suspended then s
    else if s.awaiting.Transport? then s.(cancelled := true)
    else Completing(Failing(s.(cancelled := true), RequestCancelled))
  }

  /** State `s` with error `e` recorded. */
  function Failing<P, R>(s: State<P, R>, e: Error): State<P, R>
  {
    s.(outcome := s.outcome.(error := Some(e)))
  }

  /** Completion keeps a state consistent: the enqueued interceptors are completion
      interceptors, none of which is a tracking hook. */
  lemma CompletingKeepsConsistent<P, R>(s: State<P, R>)
    requires Consistent(s)
    ensures Consistent(Completing(s))
  {
    forall op | op in Completing(s).queue.operations
      ensures !(op.Intercept? && op.interceptor.Track?)
    {
      if op !in s.queue.operations {
        var k :| 0 <= k < |Enqueued(s.completionInterceptors)| && Enqueued(s.completionInterceptors)[k] == op;
        assert s.completionInterceptors[k] in s.completionInterceptors;
      }
    }
  }

  /** So does the retry decision of a dispatched request with nothing in flight. */
  lemma FinishingKeepsConsistent<P, R>(s: State<P, R>)
    requires Consistent(s) && s.called && s.awaiting == Idle
    ensures Consistent(Finishing(s))
  {
    if s.retryConditions == [] {
      CompletingKeepsConsistent(s);
    }
  }

  /** The `completed` setter enqueues every pending completion interceptor exactly once,
      behind what is queued already and in registration order, and empties the pending
      list; setting it a second time enqueues nothing more. */
  lemma CompletionDrainsOnce<P, R>(s: State<P, R>)
    ensures var c := Completing(s);
            && !c.queue.suspended && c.completionInterceptors == []
            && |c.queue.operations| == |s.queue.operations| + |s.completionInterceptors|
            && c.queue.operations[..|s.queue.operations|] == s.queue.operations
            && (forall k :: 0 <= k < |s.completionInterceptors| ==>
                  c.queue.operations[|s.queue.operations| + k] == Intercept(s.completionInterceptors[k]))
    ensures Completing(Completing(s)) == Completing(s)
  {
    var c := Completing(s);
    assert c.queue.operations[..|s.queue.operations|] == s.queue.operations;
    assert Completing(c).queue.operations == c.queue.operations + [];
  }

  /** The three outcomes of `cancel()`. Once cancelled or completed nothing changes. With a
      transport task in flight only the flag is set and the request stays incomplete.
      Otherwise the request completes with `RequestCancelled`. A second cancel changes
      nothing. */
  lemma CancelOutcomes<P, R>(s: State<P, R>)
    ensures s.cancelled || !s.queue.suspended ==> Cancelling(s) == s
    ensures Cancelling(s).cancelled <==> s.cancelled || s.queue.suspended
    ensures !Cancelling(s).queue.suspended <==> !s.queue.suspended || (!s.cancelled && !s.awaiting.Transport?)
    ensures Cancelling(s).outcome ==
              if !s.cancelled && s.queue.suspended && !s.awaiting.Transport? then s.outcome.(error := Some(RequestCancelled))
              else s.outcome
    ensures !s.cancelled && s.queue.suspended && !s.awaiting.Transport? ==> Cancelling(s) == Completing(
              s.(cancelled := true, outcome := s.outcome.(error := Some(RequestCancelled))))
    ensures Cancelling(s).(cancelled := s.cancelled, queue := s.queue, completionInterceptors := s.completionInterceptors,
                           outcome := s.outcome) == s
    ensures Cancelling(Cancelling(s)) == Cancelling(s)
  {
  }

  /** When `sorted` holds, `now` is `before` arranged by priority; otherwise it is `before`. */
  ghost predicate Rearranged(now: seq<Processor>, before: seq<Processor>, sorted: bool)
  {
    if sorted then Arranged(now, before) else now == before
  }

  /** The managers an interceptor list refers to. */
  function Managers<P, R>(hooks: seq<Interceptor<P, R>>): set<Manager<P, R>>
  {
    set i | i in hooks && !i.Client? :: i.manager
  }

  function ManagerOf<P, R>(i: Interceptor<P, R>): set<Manager<P, R>>
  {
    if i.Client? then {} else {i.manager}
  }

  function OperationManagers<P, R>(op: Operation<P, R>): set<Manager<P, R>>
  {
    if op.Intercept? then ManagerOf(op.interceptor) else {}
  }

  // ---------------------------------------------------------------------------------
  // The registry list operations of Manager.swift

  /** `indexOf { $0 === x }`: the first position of `x`. */
  function IndexOf<T(==)>(s: seq<T>, x: T): (k: Option<nat>)
    ensures k.None? <==> x !in s
    ensures k.Some? ==> k.value < |s| && s[k.value] == x && x !in s[..k.value]
    decreases |s|
  {
    if s == [] then None
    else if s[0] == x then Some(0)
    else
      match IndexOf(s[1..], x)
      case None => None
      case Some(k) =>
        assert s[..k + 1] == [s[0]] + s[1..][..k];
        Some(k + 1)
  }

  /** The completion hook's removal: the first entry identical to `x` goes, the others keep
      their order. */
  function RemoveFirst<T(==)>(s: seq<T>, x: T): (r: seq<T>)
    ensures x !in s ==> r == s
    ensures x in s ==> exists k :: 0 <= k < |s| && s[k] == x && x !in s[..k] && r == s[..k] + s[k + 1..]
    ensures x in s ==> |r| == |s| - 1 && multiset(r) == multiset(s) - multiset{x}
  {
    match IndexOf(s, x)
    case None => s
    case Some(k) =>
      assert s == s[..k] + [x] + s[k + 1..];
      s[..k] + s[k + 1..]
  }

  /** What interceptor `i`, fired by request `r`, does to the list of manager `m`. */
  function Effect<P, R>(list: seq<Request<P, R>>, i: Interceptor<P, R>, m: Manager<P, R>, r: Request<P, R>): seq<Request<P, R>>
  {
    match i
    case Client(_) => list
    case Track(n) => if n == m then list + [r] else list
    case Untrack(n) => if n == m then RemoveFirst(list, r) else list
  }

  /** What firing all of `hooks` in order, from request `r`, does to the list of manager `m`. */
  function EffectAll<P, R>(list: seq<Request<P, R>>, hooks: seq<Interceptor<P, R>>, m: Manager<P, R>, r: Request<P, R>): seq<Request<P, R>>
    decreases |hooks|
  {
    if hooks == [] then list else Effect(EffectAll(list, hooks[..|hooks| - 1], m, r), hooks[|hooks| - 1], m, r)
  }

  // ---------------------------------------------------------------------------------

  class Request<P, R> {
    const httpMethod: Method
    const url: string
    const parameters: P
    const serializer: Serializer<P>
    const deserializer: Deserializer<P, R>

    /** `preprocess != nil` */
    var hasPreprocess: bool
    var called: bool
    var cancelled: bool
    var processors: seq<Processor>
    var beforeCallingInterceptors: seq<Interceptor<P, R>>
    var afterCallingInterceptors: seq<Interceptor<P, R>>
    var completionInterceptors: seq<Interceptor<P, R>>
    var validations: seq<Validation<P>>
    var retryTimes: nat
    var retryConditions: seq<RetryCondition<P, R>>
    var queue: OperationQueue<P, R>
    /** the properties `request`, `response`, `responseData`, `result` and `error` */
    var outcome: Outcome<R>
    var awaiting: Await
    /** every interceptor and operation run so far, in order */
    var trace: seq<Event<P, R>>

    /** `completed` */
    function Completed(): bool
      reads this
    {
      !queue.suspended
    }

    function St(): State<P, R>
      reads this
    {
      State(hasPreprocess, called, cancelled, processors,
            beforeCallingInterceptors, afterCallingInterceptors, completionInterceptors,
            validations, retryTimes, retryConditions, queue, outcome, awaiting, trace)
    }

    ghost predicate Valid()
      reads this
    {
      Consistent(St())
    }

    /** `perform()` run from state `s`, with the processors in the order `ordered`: the
        assembled description goes to the transport, or the assembly error is recorded and
        the retry decision begins. */
    function Performing(s: State<P, R>, ordered: seq<Processor>): State<P, R>
    {
      match Assemble(serializer, parameters, httpMethod, url, ordered)
      case Ok(q) => s.(processors := ordered, awaiting := Transport(q))
      case Err(e) => Finishing(Failing(s.(processors := ordered), e))
    }

    lemma PerformingKeepsConsistent(s: State<P, R>, ordered: seq<Processor>)
      requires Consistent(s) && s.called && s.awaiting == Idle
      ensures Consistent(Performing(s, ordered))
    {
      match Assemble(serializer, parameters, httpMethod, url, ordered)
      case Ok(_) =>
      case Err(e) => FinishingKeepsConsistent(Failing(s.(processors := ordered), e));
    }

    /** `doCall()`: wait for the preprocess step if there is one, otherwise perform. */
    function Dispatching(s: State<P, R>, ordered: seq<Processor>): State<P, R>
    {
      if s.hasPreprocess then s.(awaiting := Preprocessing) else Performing(s, ordered)
    }

    /** Dispatch neither runs nor changes the after-calling interceptors or the trace. */
    lemma DispatchingLeavesHooks(s: State<P, R>, ordered: seq<Processor>, after: seq<Interceptor<P, R>>, trace: seq<Event<P, R>>)
      ensures Dispatching(s, ordered).afterCallingInterceptors == s.afterCallingInterceptors
      ensures Dispatching(s, ordered).trace == s.trace
      ensures Dispatching(s, ordered).(afterCallingInterceptors := after, trace := trace) ==
              Dispatching(s.(afterCallingInterceptors := after, trace := trace), ordered)
    {
    }

    /** `completed` is only ever set to true: no transition of a completed request
        suspends its queue again. */
    lemma CompletedStaysCompleted(s: State<P, R>, ordered: seq<Processor>, e: Error)
      requires !s.queue.suspended
      ensures !Completing(s).queue.suspended && !Finishing(s).queue.suspended
      ensures !Cancelling(s).queue.suspended && !Failing(s, e).queue.suspended && !Cleared(s).queue.suspended
      ensures !Performing(s, ordered).queue.suspended && !Dispatching(s, ordered).queue.suspended
      ensures !Resolved(s).queue.suspended
    {
    }

    /** `processRequestResult()` on state `s`. */
    function Resolved(s: State<P, R>): State<P, R>
    {
      s.(outcome := Resolve(s.validations, deserializer, parameters, s.outcome))
    }

    /** What running queue operation `op` in state `s` is observed to do. */
    function Observed(op: Operation<P, R>, s: State<P, R>): Event<P, R>
    {
      match op
      case Intercept(i) => Intercepted(i)
      case Handle(h) => Delivered(Notified(h))
      case Split(yes, no) => Delivered(Route(yes, no, parameters, s.outcome))
      case RecordServerTime => ServerTimeRead(s.outcome.response)
    }

    constructor (httpMethod: Method, url: string, parameters: P, serializer: Serializer<P>, deserializer: Deserializer<P, R>)
      ensures Valid() && St() == Initial()
      ensures this.httpMethod == httpMethod && this.url == url && this.parameters == parameters
      ensures this.serializer == serializer && this.deserializer == deserializer
    {
      this.httpMethod := httpMethod;
      this.url := url;
      this.parameters := parameters;
      this.serializer := serializer;
      this.deserializer := deserializer;
      hasPreprocess, called, cancelled := false, false, false;
      processors, validations, retryConditions := [], [], [];
      beforeCallingInterceptors, afterCallingInterceptors, completionInterceptors := [], [], [];
      retryTimes := 0;
      queue := OperationQueue(true, []);
      outcome := Outcome(None, None, None, None, None);
      awaiting, trace := Idle, [];
    }

    // -------------------------------------------------------------------------------
    // Dispatch and cancellation

    /** `call()`: nothing happens once cancelled or called. Otherwise the request is marked
        called, every before-calling interceptor runs once, the request is dispatched, then
        every after-calling interceptor runs once; both lists are emptied. */
    method Call()
      requires Valid()
      modifies this, Managers(beforeCallingInterceptors)
      ensures Valid()
      ensures old(cancelled || called) ==> St() == old(St())
      ensures !old(cancelled || called) ==>
                && Rearranged(processors, old(processors), !old(hasPreprocess) && serializer(parameters).Ok?)
                && St() == Dispatching(old(St()).(called := true, beforeCallingInterceptors := [], afterCallingInterceptors := [],
                                                  trace := old(trace + Intercepts(beforeCallingInterceptors + afterCallingInterceptors))),
                                       processors)
      ensures forall m :: m in old(Managers(beforeCallingInterceptors)) ==>
                m.dispatchRequests ==
                  if old(cancelled || called) then old(m.dispatchRequests)
                  else EffectAll(old(m.dispatchRequests), old(beforeCallingInterceptors), m, this)
    {
      if cancelled || called {
        return;
      }
      called := true;
      RunBeforeCalling();
      ghost var s := St();
      ghost var dispatched := s.(afterCallingInterceptors := [], trace := s.trace + Intercepts(s.afterCallingInterceptors));
      InterceptsAppend(old(beforeCallingInterceptors), old(afterCallingInterceptors));
      assert dispatched == old(St()).(called := true, beforeCallingInterceptors := [], afterCallingInterceptors := [],
                                      trace := old(trace + Intercepts(beforeCallingInterceptors + afterCallingInterceptors)));
      DoCall();
      DispatchingLeavesHooks(s, processors, [], dispatched.trace);
      if !s.hasPreprocess {
        PerformingKeepsConsistent(dispatched, processors);
      }
      RunAfterCalling();
    }

    /** `cancel()`: nothing happens once cancelled or completed. With a transport task in
        flight only the flag is set (the task is asked to stop and its callback still
        comes); otherwise the request completes at once with `RequestCancelled`. */
    method Cancel()
      requires Valid()
      modifies this
      ensures Valid()
      ensures St() == Cancelling(old(St()))
    {
      if cancelled || Completed() {
        return;
      }
      cancelled := true;
      if awaiting.Transport? {
        // task.cancel(): the transport callback arrives later through TransportDone
      } else {
        outcome := outcome.(error := Some(RequestCancelled));
        CompletingKeepsConsistent(St());
        SetCompleted();
      }
    }

    method DoCall()
      requires awaiting == Idle
      modifies this
      ensures Rearranged(processors, old(processors), !old(hasPreprocess) && serializer(parameters).Ok?)
      ensures St() == Dispatching(old(St()), processors)
    {
      if !hasPreprocess {
        Perform();
      } else {
        // the preprocess step starts on another queue; PreprocessDone delivers its end
        awaiting := Preprocessing;
      }
    }

    method Perform()
      requires awaiting == Idle
      modifies this
      ensures Rearranged(processors, old(processors), serializer(parameters).Ok?)
      ensures St() == Performing(old(St()), processors)
    {
      var assembled := GenerateURLRequest();
      ghost var sorted := processors;
      match assembled {
        case Ok(q) =>
          awaiting := Transport(q);
        case Err(e) =>
          outcome := outcome.(error := Some(e));
          RetryOrComplete();
      }
      assert processors == sorted;
    }

    /** `generateURLRequest()`: the processors are sorted only when serialization succeeds. */
    method GenerateURLRequest() returns (r: Result<URLRequest, Error>)
      modifies this`processors
      ensures Rearranged(processors, old(processors), serializer(parameters).Ok?)
      ensures r == Assemble(serializer, parameters, httpMethod, url, processors)
    {
      var payload := serializer(parameters);
      if payload.Err? {
        return Err(payload.error);
      }
      var q := Describe(httpMethod, url, payload.value);
      r := ApplyProcessors(q);
    }

    /** `process(_:)`: sort the processors by descending priority, then run them in turn. */
    method ApplyProcessors(q: URLRequest) returns (r: Result<URLRequest, Error>)
      modifies this`processors
      ensures Arranged(processors, old(processors))
      ensures r == Applied(processors, q)
    {
      processors := SortByPriority(processors);
      r := RunProcessors(processors, q);
    }

    /** `retry()`: count the retry, clear the outcome, dispatch again. */
    method Reattempt()
      requires awaiting == Idle
      modifies this
      ensures retryTimes == old(retryTimes) + 1
      ensures Rearranged(processors, old(processors), !old(hasPreprocess) && serializer(parameters).Ok?)
      ensures St() == Dispatching(Cleared(old(St())).(retryTimes := old(retryTimes) + 1), processors)
    {
      retryTimes := retryTimes + 1;
      ClearRequestResult();
      DoCall();
    }

    method RetryOrComplete()
      modifies this
      ensures St() == Finishing(old(St()))
    {
      if retryConditions == [] {
        SetCompleted();
        return;
      }
      // the conditions are evaluated on another queue; EvaluateRetry delivers that
      awaiting := RetryEvaluation;
    }

    method RunInterceptors(hooks: seq<Interceptor<P, R>>)
      modifies this`trace, Managers(hooks)
      ensures trace == old(trace) + Intercepts(hooks)
      ensures forall m :: m in Managers(hooks) ==>
                m.dispatchRequests == EffectAll(old(m.dispatchRequests), hooks, m, this)
    {
      for i := 0 to |hooks|
        invariant trace == old(trace) + Intercepts(hooks[..i])
        invariant forall m :: m in Managers(hooks) ==>
                    m.dispatchRequests == EffectAll(old(m.dispatchRequests), hooks[..i], m, this)
      {
        assert hooks[..i + 1][..i] == hooks[..i];
        assert Intercepts(hooks[..i + 1]) == Intercepts(hooks[..i]) + [Intercepted(hooks[i])];
        Fire(hooks[i]);
      }
      assert hooks[..|hooks|] == hooks;
    }

    /** Invoke one interceptor with this request. */
    method Fire(i: Interceptor<P, R>)
      modifies this`trace, ManagerOf(i)
      ensures trace == old(trace) + [Intercepted(i)]
      ensures !i.Client? ==> i.manager.dispatchRequests == Effect(old(i.manager.dispatchRequests), i, i.manager, this)
    {
      trace := trace + [Intercepted(i)];
      match i
      case Client(_) =>
      case Track(m) => m.Register(this);
      case Untrack(m) => m.Unregister(this);
    }

    /** `beforeCalling()` */
    method RunBeforeCalling()
      modifies this, Managers(beforeCallingInterceptors)
      ensures St() == old(St()).(beforeCallingInterceptors := [], trace := old(trace + Intercepts(beforeCallingInterceptors)))
      ensures forall m :: m in old(Managers(beforeCallingInterceptors)) ==>
                m.dispatchRequests == EffectAll(old(m.dispatchRequests), old(beforeCallingInterceptors), m, this)
    {
      RunInterceptors(beforeCallingInterceptors);
      beforeCallingInterceptors := [];
    }

    /** `afterCalling()` */
    method RunAfterCalling()
      requires forall i :: i in afterCallingInterceptors ==> i.Client?
      modifies this
      ensures St() == old(St()).(afterCallingInterceptors := [], trace := old(trace + Intercepts(afterCallingInterceptors)))
    {
      assert Managers(afterCallingInterceptors) == {};
      RunInterceptors(afterCallingInterceptors);
      afterCallingInterceptors := [];
    }

    method ProcessRequestResult()
      modifies this
      ensures St() == Resolved(old(St()))
    {
      if outcome.error.Some? {
        return;
      }
      if outcome.request.None? || outcome.response.None? {
        outcome := outcome.(error := Some(RequestFailure));
        return;
      }
      var q, resp := outcome.request.value, outcome.response.value;
      var failure := RunValidations(validations, parameters, q, resp, outcome.responseData);
      if failure.Some? {
        outcome := outcome.(error := failure);
        return;
      }
      match deserializer(parameters, q, resp, outcome.responseData)
      case Ok(x) => outcome := outcome.(result := Some(x));
      case Err(e) => outcome := outcome.(error := Some(e));
    }

    method ClearRequestResult()
      modifies this
      ensures St() == Cleared(old(St()))
    {
      outcome := outcome.(request := None, response := None, responseData := None, error := None, result := None);
    }

    /** The `completed` setter, which the source only ever gives `true`. */
    method SetCompleted()
      modifies this
      ensures St() == Completing(old(St()))
    {
      queue := queue.(suspended := false);
      var pending := completionInterceptors;
      for i := 0 to |pending|
        invariant St() == old(St()).(queue := OperationQueue(false, old(queue.operations) + Enqueued(pending[..i])))
      {
        assert Enqueued(pending[..i + 1]) == Enqueued(pending[..i]) + [Intercept(pending[i])];
        queue := queue.(operations := queue.operations + [Intercept(pending[i])]);
      }
      assert pending[..|pending|] == pending;
      completionInterceptors := [];
    }

    // -------------------------------------------------------------------------------
    // Events: the continuations of the asynchronous hops

    /** The preprocess step ended, with `err` if it threw. The continuation does not look
        at `cancelled`. */
    method PreprocessDone(err: Option<Error>)
      requires Valid() && awaiting == Preprocessing
      modifies this
      ensures Valid()
      ensures Rearranged(processors, old(processors), err.None? && serializer(parameters).Ok?)
      ensures St() == match err
                      case Some(e) => Finishing(Failing(old(St()).(awaiting := Idle), e))
                      case None => Performing(old(St()).(awaiting := Idle), processors)
    {
      awaiting := Idle;
      match err {
        case Some(e) =>
          outcome := outcome.(error := Some(e));
          FinishingKeepsConsistent(St());
          RetryOrComplete();
        case None =>
          ghost var s := St();
          Perform();
          PerformingKeepsConsistent(s, processors);
      }
    }

    /** The transport callback, with what the transport reports. */
    method TransportDone(q: Option<URLRequest>, resp: Option<Response>, data: Option<Data>, err: Option<Error>)
      requires Valid() && awaiting.Transport?
      modifies this
      ensures Valid()
      ensures St() == Finishing(Resolved(old(St()).(awaiting := Idle,
                                                   outcome := old(outcome).(request := q, response := resp, responseData := data, error := err))))
    {
      awaiting := Idle;
      outcome := outcome.(request := q, response := resp, responseData := data, error := err);
      ProcessRequestResult();
      FinishingKeepsConsistent(St());
      RetryOrComplete();
    }

    /** The background block of `retryOrComplete`: scan the retry conditions against the
        outcome as it is now. */
    method EvaluateRetry()
      requires Valid() && awaiting == RetryEvaluation
      modifies this
      ensures Valid()
      ensures St() == old(St()).(awaiting := RetryContinuation(Decide(retryConditions, parameters, outcome, retryTimes)))
    {
      var d := ScanConditions(retryConditions, parameters, outcome, retryTimes);
      awaiting := RetryContinuation(d);
    }

    /** The continuation of the retry scan: a thrown error completes the request with that
        error, a true answer retries, otherwise the request completes as it is. Like the
        source it does not look at `cancelled` or `completed`. */
    method RetryDecided()
      requires Valid() && awaiting.RetryContinuation?
      modifies this
      ensures Valid()
      ensures match old(awaiting.decision)
              case Abort(e) => St() == Completing(Failing(old(St()).(awaiting := Idle), e))
              case Finish => St() == Completing(old(St()).(awaiting := Idle))
              case Retry =>
                && retryTimes == old(retryTimes) + 1
                && Rearranged(processors, old(processors), !old(hasPreprocess) && serializer(parameters).Ok?)
                && St() == Dispatching(Cleared(old(St())).(awaiting := Idle, retryTimes := old(retryTimes) + 1), processors)
    {
      var decision := awaiting.decision;
      awaiting := Idle;
      match decision
      case Abort(e) =>
        outcome := outcome.(error := Some(e));
        CompletingKeepsConsistent(St());
        SetCompleted();
      case Retry =>
        ghost var s := Cleared(St()).(retryTimes := retryTimes + 1);
        Reattempt();
        if !s.hasPreprocess {
          PerformingKeepsConsistent(s, processors);
        }
      case Finish =>
        CompletingKeepsConsistent(St());
        SetCompleted();
    }

    /** The serial queue runs its next operation, which it only does once the request
        completed. The hop back to the registering queue is not modelled. */
    method RunQueued()
      requires Valid() && Completed() && queue.operations != []
      modifies this, OperationManagers(queue.operations[0])
      ensures Valid()
      ensures St() == old(St()).(queue := OperationQueue(false, old(queue.operations[1..])),
                                 trace := old(trace) + [Observed(old(queue.operations[0]), old(St()))])
      ensures old(queue.operations[0]).Intercept? ==>
                forall m :: m in old(OperationManagers(queue.operations[0])) ==>
                  m.dispatchRequests == Effect(old(m.dispatchRequests), old(queue.operations[0].interceptor), m, this)
    {
      var op := queue.operations[0];
      queue := queue.(operations := queue.operations[1..]);
      match op
      case Intercept(i) =>
        Fire(i);
      case Handle(h) =>
        trace := trace + [Delivered(Notified(h))];
      case Split(yes, no) =>
        trace := trace + [Delivered(Route(yes, no, parameters, outcome))];
      case RecordServerTime =>
        trace := trace + [ServerTimeRead(outcome.response)];
    }

    // -------------------------------------------------------------------------------
    // Configuration

    /** `process(priority:processor:)`, and `process(_:)` with the default priority. */
    method Process(apply: URLRequest -> Result<URLRequest, Error>, priority: Priority := Normal)
      requires Valid()
      modifies this
      ensures Valid()
      ensures St() == if old(called) then old(St())
                      else old(St()).(processors := old(processors) + [Processor(priority, apply)])
    {
      if !called {
        processors := processors + [Processor(priority, apply)];
      }
    }

    /** `retry(_:)` */
    method RetryIf(condition: RetryCondition<P, R>)
      requires Valid()
      modifies this
      ensures Valid()
      ensures St() == if old(called) then old(St())
                      else old(St()).(retryConditions := old(retryConditions) + [condition])
    {
      if !called {
        retryConditions := retryConditions + [condition];
      }
    }

    /** `beforeCalling(_:)` with the application closure `id`. */
    method BeforeCalling(id: nat)
      requires Valid()
      modifies this
      ensures Valid()
      ensures St() == if old(called) then old(St())
                      else old(St()).(beforeCallingInterceptors := old(beforeCallingInterceptors) + [Client(id)])
    {
      if !called {
        beforeCallingInterceptors := beforeCallingInterceptors + [Client(id)];
      }
    }

    /** `afterCalling(_:)` with the application closure `id`. */
    method AfterCalling(id: nat)
      requires Valid()
      modifies this
      ensures Valid()
      ensures St() == if old(called) then old(St())
                      else old(St()).(afterCallingInterceptors := old(afterCallingInterceptors) + [Client(id)])
    {
      if !called {
        afterCallingInterceptors := afterCallingInterceptors + [Client(id)];
      }
    }

    /** `completion(_:)` with the application closure `id`. It is never gated: an
        interceptor added after completion waits until `completed` is set again. */
    method Completion(id: nat)
      requires Valid()
      modifies this
      ensures Valid()
      ensures St() == old(St()).(completionInterceptors := old(completionInterceptors) + [Client(id)])
    {
      completionInterceptors := completionInterceptors + [Client(id)];
    }

    /** `validate(_:)`, gated on completion rather than on dispatch. */
    method Validate(validation: Validation<P>)
      requires Valid()
      modifies this
      ensures Valid()
      ensures St() == if old(Completed()) then old(St())
                      else old(St()).(validations := old(validations) + [validation])
    {
      if !Completed() {
        validations := validations + [validation];
      }
    }

    /** Assigning `preprocess`, which the source allows at any time. */
    method SetPreprocess(present: bool)
      requires Valid()
      modifies this
      ensures Valid()
      ensures St() == old(St()).(hasPreprocess := present)
    {
      hasPreprocess := present;
    }

    /** `response(queue:completionHandler:)` with a handler given the whole request: it is
        queued behind everything already on the queue. */
    method ResponseHandler(handler: nat)
      requires Valid()
      modifies this
      ensures Valid()
      ensures St() == old(St()).(queue := old(queue).(operations := old(queue.operations) + [Handle(handler)]))
    {
      queue := queue.(operations := queue.operations + [Handle(handler)]);
    }

    /** `response(queue:successHandler:failureHandler:)` */
    method ResponseSplit(success: nat, failure: Option<nat> := None)
      requires Valid()
      modifies this
      ensures Valid()
      ensures St() == old(St()).(queue := old(queue).(operations := old(queue.operations) + [Split(success, failure)]))
    {
      queue := queue.(operations := queue.operations + [Split(success, failure)]);
    }
  }

  // ---------------------------------------------------------------------------------

  class Manager<P, R> {
    const url: string
    const httpMethod: Method
    var dispatchRequests: seq<Request<P, R>>

    /** Every listed request has been called. */
    ghost predicate Valid()
      reads this, dispatchRequests
    {
      forall r :: r in dispatchRequests ==> r.called && r.Valid()
    }

    /** `init(URL:method:)`, whose method defaults to POST. */
    constructor (url: string, httpMethod: Method := POST)
      ensures Valid() && this.url == url && this.httpMethod == httpMethod && dispatchRequests == []
    {
      this.url := url;
      this.httpMethod := httpMethod;
      dispatchRequests := [];
    }

    /** `request(_:serializer:deserializer:)`: a new request for this endpoint, which joins
        the list when it is dispatched, leaves it when it completes, and reads the server
        time from its response. */
    method NewRequest(parameters: P, serializer: Serializer<P>, deserializer: Deserializer<P, R>) returns (r: Request<P, R>)
      ensures fresh(r) && r.Valid()
      ensures r.httpMethod == httpMethod && r.url == url && r.parameters == parameters
      ensures r.serializer == serializer && r.deserializer == deserializer
      ensures r.St() == Wired(this)
    {
      r := new Request(httpMethod, url, parameters, serializer, deserializer);
      // the `beforeCalling`, `completion` and `response` calls on the fresh request
      r.beforeCallingInterceptors := [Track(this)];
      r.completionInterceptors := [Untrack(this)];
      r.queue := OperationQueue(true, [RecordServerTime]);
    }

    /** The body of the before-calling hook. */
    method Register(r: Request<P, R>)
      modifies this
      ensures dispatchRequests == old(dispatchRequests) + [r]
    {
      dispatchRequests := dispatchRequests + [r];
    }

    /** The body of the completion hook. */
    method Unregister(r: Request<P, R>)
      modifies this
      ensures dispatchRequests == RemoveFirst(old(dispatchRequests), r)
    {
      var index := IndexOf(dispatchRequests, r);
      if index.Some? {
        dispatchRequests := dispatchRequests[..index.value] + dispatchRequests[index.value + 1..];
      }
    }

    /** `cancelAll()`: cancel every listed request, then empty the list. */
    method CancelAll()
      requires Valid()
      modifies this, dispatchRequests
      ensures dispatchRequests == []
      ensures forall r :: r in old(dispatchRequests) ==> r.Valid() && r.St() == Cancelling(old(r.St()))
    {
      var rs := dispatchRequests;
      for i := 0 to |rs|
        invariant forall r :: r in rs ==> r.Valid()
        invariant forall r :: r in rs ==> r.St() == if r in rs[..i] then Cancelling(old(r.St())) else old(r.St())
      {
        assert rs[..i + 1] == rs[..i] + [rs[i]];
        rs[i].Cancel();
      }
      assert rs[..|rs|] == rs;
      dispatchRequests := [];
    }
  }

  /** A request as `Manager.request` returns it. */
  function Wired<P, R>(m: Manager<P, R>): (s: State<P, R>)
    ensures Consistent(s)
  {
    Initial().(beforeCallingInterceptors := [Track(m)], completionInterceptors := [Untrack(m)],
               queue := OperationQueue(true, [RecordServerTime]))
  }

  // ---------------------------------------------------------------------------------
  // The `ManagerType` extensions for `Void` parameters or results

  /** `serialize()`: no payload. */
  function Serialize(u: ()): (r: Result<Option<Data>, Error>)
    ensures r == Ok(None)
  {
    Ok(None)
  }

  /** `deserialize(_:_:_:_:)`: the unit result. */
  function Deserialize<P>(p: P, q: URLRequest, resp: Response, data: Option<Data>): (r: Result<(), Error>)
    ensures r == Ok(())
  {
    Ok(())
  }

  /** `request(deserializer:)` */
  method RequestWithoutParameters<R>(m: Manager<(), R>, deserializer: Deserializer<(), R>) returns (r: Request<(), R>)
    ensures fresh(r) && r.Valid() && r.serializer == Serialize && r.deserializer == deserializer
    ensures r.St() == Wired(m)
  {
    r := m.NewRequest((), Serialize, deserializer);
  }

  /** `request(_:serializer:)` */
  method RequestWithoutResult<P>(m: Manager<P, ()>, parameters: P, serializer: Serializer<P>) returns (r: Request<P, ()>)
    ensures fresh(r) && r.Valid() && r.parameters == parameters && r.serializer == serializer
    ensures r.deserializer == Deserialize
    ensures r.St() == Wired(m)
  {
    r := m.NewRequest(parameters, serializer, Deserialize);
  }

  /** `request()` */
  method PlainRequest(m: Manager<(), ()>) returns (r: Request<(), ()>)
    ensures fresh(r) && r.Valid() && r.serializer == Serialize && r.deserializer == Deserialize
    ensures r.St() == Wired(m)
  {
    r := m.NewRequest((), Serialize, Deserialize);
  }
}
