# A verified model of the request lifecycle and the request registry

This project models, in Dafny, the core of a Swift library for typed HTTP requests. It covers two parts:

- `Request<P, R>` (API/Request.swift). A request is configured with hooks, then dispatched once. It is serialized, described, mutated by priority-ordered processors, sent, resolved through validations and a deserializer, and retried while some retry condition says so. It then completes, which releases a serial queue of completion interceptors and response handlers.
- `Manager<P, R>` (Manager.swift). A manager creates requests for one endpoint and keeps the list of the requests it has dispatched. It wires a before-calling hook that appends the request, a completion hook that removes it, and a response handler that reads the server time. It can cancel everything it lists.

Files:

- `wrappers.dfy`: `Option` and `Result`.
- `errors.dfy`: the error enum of Errors.swift, plus `Other` for errors from outside it.
- `http.dfy`: `Method`, `Priority`, and the outbound and inbound HTTP values. It also holds `Describe`, which is `generateURLRequest(_:)`.
- `pipeline.dfy`: the hook logic, as values.
  - sorting and applying the processors;
  - the validation scan and the deserialization step, which together are `processRequestResult`;
  - the retry scan;
  - the success/failure response variant.
- `api.dfy`: the `Request` and `Manager` classes. They live in one module because each refers to the other.
- `registry.dfy`: the manager's list followed through dispatch and completion.

## How the model is built

Each field of the Swift class is a field of the Dafny class `Api.Request`, with these changes:

- `completed` is `!queue.suspended`, as in the source.
- `requestTask != nil` is `awaiting.Transport?`.
- The five outcome properties are one `Outcome` record.
- The closure `preprocess` becomes the flag `hasPreprocess`. Whether the step throws, and what, is the argument of the event `PreprocessDone`.
- `awaiting` records which asynchronous continuation is outstanding. It has no Swift counterpart.
- `trace` records every interceptor and queue operation run, in order. It has no Swift counterpart either.

`St()` collects the mutable fields into a `State` value. Every method's `ensures` gives the new state as a pure transition of the old one:

| transition | source function |
|---|---|
| `Completing` | the `completed` setter |
| `Finishing` | `retryOrComplete` |
| `Cancelling` | `cancel` |
| `Cleared` | `clearRequestResult` |
| `Performing` | `perform` |
| `Dispatching` | `doCall` |
| `Resolved` | `processRequestResult` |

Lemmas then prove what the source promises about those transitions.

The source hops between operation queues. Each hop becomes an event method that the environment invokes when the continuation would run:

- `PreprocessDone`
- `TransportDone`
- `EvaluateRetry`
- `RetryDecided`
- `RunQueued`

`awaiting` names the one continuation that is outstanding. The methods `Request.Fire`, `RunQueued` and `Manager.Register`/`Unregister` carry out the manager's hooks on the manager's list. Every interceptor and queue operation that runs is appended to `trace`, so "runs once, in order" is a statement about `trace`.

Hooks are modelled as follows:

- Serializer, deserializer, validations, retry conditions and processor effects are total Dafny functions: they return a value or the error they throw.
- Application interceptors and response handlers are known only by an identity (`Client(id)`, `Handle(h)`, `Split(s, f)`).

## Model

| member | source | states |
|---|---|---|
| Http.MethodFromRawValue | API/Request.swift:13-23 | a decoded verb has exactly the given raw string |
| Http.MethodRawValueRoundTrip | API/Request.swift:13-23 | decoding the raw value of any method yields that method |
| Http.Priority.RawValue | API/Request.swift:25-31 | the raw value of a priority lies in 0..4 |
| Http.PriorityOrder | API/Request.swift:25-31 | distinct priorities have distinct raw values, rising from `VeryLow` to `VeryHigh` in declaration order |
| Http.HeaderValues | API/Request.swift:263 | a value is returned exactly when some header has the given name and that value |
| Http.Describe | API/Request.swift:259-267 | the description has the endpoint URL, the payload as body, a method string that decodes to the verb, and exactly one header, `Content-Type: charset=utf-8` |
| Pipeline.InsertByPriority | API/Request.swift:246 | inserting one processor into a list with non-increasing priority keeps it so and adds exactly that processor |
| Pipeline.SortByPriority | API/Request.swift:245-246 | the result has non-increasing priority raw values and is a permutation of the registered processors (stability is not claimed) |
| Pipeline.ThrowStopsTheRest | API/Request.swift:247-249 | once a processor has thrown, the later ones do not change the result |
| Pipeline.FirstThrowWins | API/Request.swift:247-249 | running the processors fails with `e` if and only if some processor, reached because all earlier ones succeeded, throws `e` |
| Pipeline.RunProcessors | API/Request.swift:247-249 | the loop computes the sequential application of the processors, stopping at the first throw |
| Pipeline.Assemble | API/Request.swift:252-257 | a serializer error is the assembly's error; otherwise the processors run on the description; with no processors the body is the payload |
| Pipeline.FirstFailure | API/Request.swift:280-282 | no error if and only if every validation passes; otherwise the error of a validation all of whose predecessors passed |
| Pipeline.FirstFailureAt | API/Request.swift:280-282 | when validation `k` is the first that throws, its error is the one reported |
| Pipeline.RunValidations | API/Request.swift:280-282 | the loop returns the first validation error, or none |
| Pipeline.Resolve | API/Request.swift:269-288 | only error and result change; a recorded error short-circuits; a missing request or response gives `RequestFailure`; a failing validation's error is recorded and the deserializer does not run; only with all validations passing does the deserializer's value or error land |
| Pipeline.Decide | API/Request.swift:205-216 | `Finish` if and only if every condition answers false; `Retry` or `Abort(e)` only when the first condition that does not answer false answers true or throws `e` |
| Pipeline.DecidedAt | API/Request.swift:208-213 | the first condition that does not answer false decides the outcome |
| Pipeline.ScanConditions | API/Request.swift:202-216 | the loop with early exit computes the decision |
| Pipeline.Route | API/Request.swift:387-395 | the failure handler is called if and only if an error is present and a failure handler was given, and it receives the partial outcome and that error; with no failure handler nothing is called and the error is the recorded one; the success handler is called if and only if there is no error and request, response and result are present, and it receives them |
| Api.Initial | API/Request.swift:51-69 | a fresh request is consistent, not called, not cancelled and not completed |
| Api.CompletionDrainsOnce | API/Request.swift:71-93 | completing releases the queue, appends each pending completion interceptor once in registration order behind the queued operations, and empties the pending list; completing again changes nothing |
| Api.CancelOutcomes | API/Request.swift:127-139 | cancel is a no-op once cancelled or completed; it sets `cancelled` otherwise; it completes the request (recording `RequestCancelled`) if and only if no transport task is in flight; a second cancel changes nothing; no other field changes |
| Api.CompletingKeepsConsistent | API/Request.swift:71-93 | completion preserves the request invariant |
| Api.FinishingKeepsConsistent | API/Request.swift:196-201 | completing or starting the retry evaluation preserves the request invariant |
| Api.IndexOf | Manager.swift:44 | `None` if and only if the request is not listed; otherwise the first position holding it |
| Api.RemoveFirst | Manager.swift:43-47 | an absent request leaves the list unchanged; otherwise exactly the first identical entry is removed and the others keep their order |
| Api.Wired | Manager.swift:38-53 | a request as the manager returns it (tracking hook, untracking hook, server-time handler) is consistent |
| Api.Serialize | Manager.swift:75-77 | the parameterless serializer yields no payload |
| Api.Deserialize | Manager.swift:85-86 | the resultless deserializer yields unit |
| Api.RequestWithoutParameters | Manager.swift:71-73 | a wired request for `()` parameters that uses `Serialize` |
| Api.RequestWithoutResult | Manager.swift:81-83 | a wired request that uses `Deserialize` |
| Api.PlainRequest | Manager.swift:90-92 | a wired request that uses both `Serialize` and `Deserialize` |
| Api.Request.constructor | API/Request.swift:101-107 | the endpoint, parameters and hooks are stored, and the state is `Initial()` |
| Api.Request.PerformingKeepsConsistent | API/Request.swift:167-188 | performing preserves the request invariant |
| Api.Request.CompletedStaysCompleted | API/Request.swift:71-93 | no transition of a completed request suspends its queue again |
| Api.Request.Call | API/Request.swift:114-125 | a no-op when cancelled or called; otherwise it sets `called`, runs every before-calling and then every after-calling interceptor once, in order, empties both lists, dispatches, and applies the before-calling hooks' effects to the managers' lists |
| Api.Request.Cancel | API/Request.swift:127-139 | the new state is `Cancelling` of the old one |
| Api.Request.DoCall | API/Request.swift:141-165 | with a preprocess step it awaits that step; otherwise it performs |
| Api.Request.Perform | API/Request.swift:167-188 | on successful assembly the description goes to the transport; otherwise the error is recorded and the retry decision begins; the processors are sorted when serialization succeeds |
| Api.Request.GenerateURLRequest | API/Request.swift:252-257 | the result is `Assemble` over the processors as sorted; they are sorted only when serialization succeeds |
| Api.Request.ApplyProcessors | API/Request.swift:245-250 | the processors are rearranged by descending priority and run in that order |
| Api.Request.Reattempt | API/Request.swift:190-194 | `retryTimes` grows by exactly one, the outcome is cleared, then the request is dispatched again |
| Api.Request.RetryOrComplete | API/Request.swift:196-201 | with no retry conditions the request completes; otherwise the evaluation is awaited |
| Api.Request.RunInterceptors | API/Request.swift:232-234 | each interceptor runs once in order, and each manager's list receives their effects in order |
| Api.Request.Fire | API/Request.swift:233 | one interceptor runs, with its effect on its manager's list |
| Api.Request.RunBeforeCalling | API/Request.swift:231-236 | the before-calling interceptors run in order and the list is emptied |
| Api.Request.RunAfterCalling | API/Request.swift:238-243 | the after-calling interceptors run in order and the list is emptied |
| Api.Request.ProcessRequestResult | API/Request.swift:269-288 | the outcome becomes `Resolve` of the old outcome, and nothing else changes |
| Api.Request.ClearRequestResult | API/Request.swift:290-296 | all five outcome properties are cleared, and nothing else changes |
| Api.Request.SetCompleted | API/Request.swift:71-93 | the new state is `Completing` of the old one |
| Api.Request.PreprocessDone | API/Request.swift:147-164 | a preprocess error is recorded and the retry decision begins; otherwise the request performs; `cancelled` is not consulted |
| Api.Request.TransportDone | API/Request.swift:169-183 | the task is cleared, the reported values are recorded, the result is resolved, and the retry decision begins |
| Api.Request.EvaluateRetry | API/Request.swift:202-216 | the awaited continuation carries `Decide` of the conditions on the current outcome and retry count |
| Api.Request.RetryDecided | API/Request.swift:217-227 | a thrown error is recorded and the request completes; a true answer retries; otherwise the request completes with the current outcome |
| Api.Request.RunQueued | API/Request.swift:80-87 | the first queued operation runs once: an interceptor (with its effect on its manager's list), a handler, the success/failure routing, or the server-time reader |
| Api.Request.Process | API/Request.swift:300-309 | appends the processor with its priority (default `Normal`) while not called; otherwise all state is unchanged |
| Api.Request.RetryIf | API/Request.swift:313-318 | appends the condition while not called; otherwise all state is unchanged |
| Api.Request.BeforeCalling | API/Request.swift:322-327 | appends the interceptor while not called; otherwise all state is unchanged |
| Api.Request.AfterCalling | API/Request.swift:329-334 | appends the interceptor while not called; otherwise all state is unchanged |
| Api.Request.Completion | API/Request.swift:336-340 | always appends the interceptor to the pending list |
| Api.Request.Validate | API/Request.swift:344-349 | appends the validation while not completed; otherwise all state is unchanged |
| Api.Request.SetPreprocess | API/Request.swift:49 | assigns whether a preprocess step is present |
| Api.Request.ResponseHandler | API/Request.swift:357-367 | queues the handler behind everything already queued |
| Api.Request.ResponseSplit | API/Request.swift:387-395 | queues the success/failure routing behind everything already queued |
| Api.Manager.constructor | Manager.swift:22-25 | the endpoint is stored, the method defaults to POST, and the list starts empty |
| Api.Manager.NewRequest | Manager.swift:38-53 | a fresh request for the endpoint, wired with the tracking hook, the untracking hook and the server-time reader |
| Api.Manager.Register | Manager.swift:40-42 | appends the request to the list |
| Api.Manager.Unregister | Manager.swift:43-47 | removes the first identical entry, as `RemoveFirst` |
| Api.Manager.CancelAll | Manager.swift:55-61 | every request listed at the call is cancelled once and the list ends empty |
| Registry.TrackedOnce | Manager.swift:40-42 | firing the tracking hook followed by application interceptors appends the request to the list exactly once |
| Registry.DispatchRegisters | Manager.swift:38-42 | dispatching a request created by the manager appends it to the manager's list exactly once, and every listed request stays called and consistent. This holds whatever configuration followed, provided the tracking hook is still first and the other before-calling interceptors are the application's |
| Registry.CompletionUnregisters | Manager.swift:43-47 | running a request's completion hook removes its first entry from the list, and every listed request stays called and consistent |

Where the code and the natural reading of the design disagree, the model follows the code:

- The sort behind `process(_:)` is `sortInPlace`, which promises no stability. Only the priority order and the permutation are proved.
- `cancel()` before `call()` completes the request. A request can therefore be completed without having been called.
- The preprocess continuation and the retry continuation do not look at `cancelled`. A request cancelled while its preprocess step runs completes at once, yet the step's end can still start a transport call. A true retry answer re-dispatches even after a cancel.
- `completion(_:)` is never gated. An interceptor added after completion stays pending until `completed` is set once more, which only a later completion of the same request does.
- The completion hook that unlists a request runs from the serial queue after completion. A listed request can therefore already be completed. The registry invariant is that every listed request is called, not that it is still pending.

## Left out

- The transport call (API/Request.swift:169) is not modelled as code. `Perform` records the description it sends in `awaiting`; the environment delivers the reply through `TransportDone`, and the cancel request to the task is only a comment.
- Operation-queue scheduling is not modelled (API/Request.swift:60-66, 79-87, 147-164, 202-228, 357-367, 418-421): quality of service, the hop back to the registering queue, and the worker queues. The sequence of event methods stands in for it, and `RunQueued` runs one queued operation at a time.
- `weak`/`unowned` captures and `deinit` are memory management and are left out. This includes the `cancelAll()` from `Manager.deinit`.
- API/ServerTime.swift is not part of this model. The time is floating point and wall-clock, and parsing the Date header uses a foreign formatter. The manager's server-time handler is recorded as the event `ServerTimeRead` with the response it reads, not as an update of the shared instance.
- `Manager.init(URLString:)` (Manager.swift:27-32) relies on URL parsing in a foreign library and is left out. The charset name (API/Request.swift:263) is the constant `utf-8` rather than a CoreFoundation call.
- The projection-only `response` overloads (API/Request.swift:369-385, 397-415) are left out. They are thin wrappers over `response(queue:completionHandler:)`, which is `ResponseHandler`.
- The `queue:` argument of the `response` methods is left out. `response(queue:completionHandler:)` never reads it: the handler always hops to the queue that was current when it was registered (API/Request.swift:357-365). The other overloads only pass the argument on.
- Interceptors and handlers of the application are identities. Their own effects on the request, such as re-entrant calls from inside an interceptor, are not modelled.
- The source's `Self` return values, which exist for chaining configuration calls, are left out.
- Api.Request.Reattempt: `retryTimes` is a `nat`, so the trap of Swift's `UInt` increment at its maximum is not modelled.
- Api.Request.Process: a processor's effect is a function over an immutable description. Mutation of a shared `NSMutableURLRequest` is not modelled.
- Http.Describe: the URL is a string and the headers are a list of pairs. `NSURL` and the header dictionary's merging rules are not modelled.
