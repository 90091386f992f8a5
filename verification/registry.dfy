/**
 The pending-request registry of server.js and the state around it.

 `pending` is the key set of the module-level `pendingRequests` Map. The value stored under
 each key, a `{resolve, reject}` pair, is the only handle on that request's promise, so it is
 represented by the request's `outcome` slot in `requests`. `requests` remembers every id
 ever issued, with the submitted text, the state of the outbound dispatch and the promise's
 outcome; it never shrinks, which is what lets freshness of an id be stated. `timers` holds
 the ids whose five-minute `setTimeout` callback is armed and has not fired yet: the source
 never cancels one.
 */
module Registry {
  import opened Options
  import opened JsValues
  import opened Http

  type Id = string

  /** The state of the `await axios.post(...)` call of one submission. */
  datatype DispatchState = InFlight | Delivered | DispatchFailed(message: string)

  /** The state of one submission's promise: unsettled, or settled exactly one way. */
  datatype Outcome = Unsettled | Resolved(value: ResultPayload) | Rejected(message: string)

  datatype Request = Request(text: JsValue, dispatch: DispatchState, outcome: Outcome)

  datatype State = State(pending: set<Id>, requests: map<Id, Request>, timers: set<Id>)

  /** The process at start-up: nothing registered, nothing issued, no timer armed. */
  const Init := State({}, map[], {})

  /** What every reachable state satisfies: an id is registered exactly while its promise is
      unsettled, and every registered id still has its timer armed, so no entry can outlive
      its timeout. */
  predicate Valid(s: State) {
    && s.pending <= s.timers
    && s.timers <= s.requests.Keys
    && forall id :: id in s.requests ==> (id in s.pending <==> s.requests[id].outcome.Unsettled?)
  }

  /** A `uuidv4()` result: never seen before by any part of the state. */
  predicate Fresh(s: State, id: Id) {
    id !in s.requests && id !in s.pending && id !in s.timers
  }

  /** Put `id` into the registry with a new unsettled request and arm its timer. */
  function Register(s: State, id: Id, text: JsValue): (s': State)
    requires Fresh(s, id)
    ensures s'.pending == s.pending + {id} && |s'.pending| == |s.pending| + 1
    ensures s'.timers == s.timers + {id} && |s'.timers| == |s.timers| + 1
    ensures s'.requests.Keys == s.requests.Keys + {id}
    ensures s'.requests[id] == Request(text, InFlight, Unsettled)
    ensures forall other :: other in s.requests ==> s'.requests[other] == s.requests[other]
    ensures Valid(s) ==> Valid(s')
  {
    State(s.pending + {id}, s.requests[id := Request(text, InFlight, Unsettled)], s.timers + {id})
  }

  /** `s'` is `s` with `id` taken out of the registry and its promise settled as `o`; every
      other request and the armed timers are as before. */
  predicate SettledOnly(s: State, s': State, id: Id, o: Outcome) {
    && id in s.requests
    && s'.pending == s.pending - {id}
    && s'.timers == s.timers
    && s'.requests.Keys == s.requests.Keys
    && s'.requests[id] == s.requests[id].(outcome := o)
    && forall other :: other in s.requests && other != id ==> s'.requests[other] == s.requests[other]
  }

  /** Settle the promise of `id` and delete its registry entry. */
  function Settle(s: State, id: Id, o: Outcome): (s': State)
    requires id in s.requests
    ensures SettledOnly(s, s', id, o)
  {
    State(s.pending - {id}, s.requests[id := s.requests[id].(outcome := o)], s.timers)
  }

  /** The answer the suspended `/api/process-text` handler gives its caller, once it has one:
      a failed dispatch is answered at once, whatever becomes of the promise afterwards; a
      delivered one waits for the promise and answers with its value or its rejection. */
  function CallerReply(r: Request): (reply: Option<HttpResponse>)
    ensures reply.Some? <==> r.dispatch.DispatchFailed? || (r.dispatch.Delivered? && !r.outcome.Unsettled?)
    ensures r.dispatch.Delivered? && r.outcome.Resolved? ==> reply == Some(HttpResponse(200, Data(r.outcome.value)))
    ensures reply.Some? && reply.value.code == 200 ==> r.outcome.Resolved? && reply.value.body == Data(r.outcome.value)
    ensures r.dispatch.DispatchFailed? ==> reply == Some(ProcessFailure(r.dispatch.message))
    ensures r.dispatch.Delivered? && r.outcome.Rejected? ==> reply == Some(ProcessFailure(r.outcome.message))
  {
    match r.dispatch
    case InFlight => None
    case DispatchFailed(m) => Some(ProcessFailure(m))
    case Delivered =>
      match r.outcome
      case Unsettled => None
      case Resolved(v) => Some(HttpResponse(200, Data(v)))
      case Rejected(m) => Some(ProcessFailure(m))
  }

  /** The outcome of `id`'s promise; an id never issued has none yet. */
  function OutcomeOf(s: State, id: Id): Outcome {
    if id in s.requests then s.requests[id].outcome else Unsettled
  }

  /** The answer the caller of `id` has received so far, if any. */
  function ReplyOf(s: State, id: Id): Option<HttpResponse> {
    if id in s.requests then CallerReply(s.requests[id]) else None
  }

  /** The ids whose callers still wait for a settlement. */
  function AwaitingSettlement(s: State): set<Id> {
    set id | id in s.requests && s.requests[id].outcome.Unsettled?
  }

  /** In a valid state the registry holds exactly the unsettled requests. */
  lemma RegistryIsAwaitingSettlement(s: State)
    requires Valid(s)
    ensures s.pending == AwaitingSettlement(s)
  {
  }

  /** The initial state is valid and empty. */
  lemma InitIsValid()
    ensures Valid(Init) && |Init.pending| == 0
  {
  }
}
