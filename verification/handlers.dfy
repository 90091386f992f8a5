/**
 The route handlers and the timer callback of server.js, each as one atomic transition.
 Node runs the synchronous part of a handler without interruption, so every event below
 is a single step on the registry state. The asynchronous `/api/process-text` handler is
 split at its suspension points: `Submit` is its synchronous prefix, `Dispatched` is the
 moment the outbound call settles, and the caller's answer is read off the request with
 `CallerReply` whenever it exists.
 */
module Handlers {
  import opened Options
  import opened JsValues
  import opened Http
  import opened Registry

  /** The state after an event and the response, if any, sent on the HTTP exchange that
      the event itself belongs to. */
  datatype Transition = Transition(next: State, response: Option<HttpResponse>)

  /** How the outbound `axios.post` to the workflow webhook ended. */
  datatype DispatchResult = DispatchOk | DispatchFail(message: string)

  datatype Event =
    | SubmitText(body: JsValue, freshId: Id)       // POST /api/process-text; freshId is uuidv4()
    | DispatchSettled(id: Id, result: DispatchResult)
    | CallbackArrives(body: JsValue)                // POST /api/n8n-callback
    | TimerFires(id: Id)                            // the setTimeout armed by the submission of id
    | HealthCheck                                   // GET /api/health
    | StatusQuery(requestId: string)                // GET /api/status/:requestId

  const TextField := "text_to_analyze"

  const BadText := HttpResponse(400, Failure(Text(TextRequired)))
  const MissingId := HttpResponse(400, Failure(Text(IdMissing)))
  const UnknownId := HttpResponse(404, Failure(Text(NoMatch)))
  const CallbackDone := HttpResponse(200, Acknowledged)

  /** The facts every event keeps, which make settlement and the caller's answer final: an
      issued id stays issued, a settled outcome never changes, an answer once given never
      changes, a fired timer is never re-armed, and a finished dispatch stays finished. */
  ghost predicate KeepsFinal(s: State, s': State) {
    && s.requests.Keys <= s'.requests.Keys
    && (forall id :: !OutcomeOf(s, id).Unsettled? ==> OutcomeOf(s', id) == OutcomeOf(s, id))
    && (forall id :: ReplyOf(s, id).Some? ==> ReplyOf(s', id) == ReplyOf(s, id))
    && (forall id :: id in s.requests && id !in s.timers ==> id !in s'.timers)
    && (forall id :: id in s.requests && !s.requests[id].dispatch.InFlight? ==>
          s'.requests[id].dispatch == s.requests[id].dispatch)
  }

  /** The synchronous part of POST /api/process-text: read the text, refuse it when falsy,
      otherwise register the new id and arm its timer; the handler then suspends on the
      outbound call without answering. */
  function Submit(s: State, body: JsValue, id: Id): (r: Transition)
    requires Fresh(s, id)
    ensures Valid(s) ==> Valid(r.next)
    ensures KeepsFinal(s, r.next)
    ensures Nullish(body) ==> r == Transition(s, Some(EngineFailure))
    ensures !Nullish(body) && !Truthy(Prop(body, TextField).value) ==> r == Transition(s, Some(BadText))
    ensures !Nullish(body) && Truthy(Prop(body, TextField).value) ==>
      && r.response.None?
      && r.next.pending == s.pending + {id}
      && |r.next.pending| == |s.pending| + 1
      && r.next.timers == s.timers + {id}
      && |r.next.timers| == |s.timers| + 1
      && r.next.requests.Keys == s.requests.Keys + {id}
      && r.next.requests[id] == Request(Prop(body, TextField).value, InFlight, Unsettled)
      && forall other :: other in s.requests ==> r.next.requests[other] == s.requests[other]
  {
    match Prop(body, TextField)
    case None => Transition(s, Some(EngineFailure))
    case Some(text) =>
      if !Truthy(text) then Transition(s, Some(BadText))
      else
        Transition(Register(s, id, text), None)
  }

  /** The outbound call of submission `id` settles. Nothing is removed from the registry on
      failure: the catch block only answers the caller, and the entry stays until its timer
      fires or a callback for it arrives. */
  function Dispatched(s: State, id: Id, result: DispatchResult): (r: Transition)
    requires id in s.requests && s.requests[id].dispatch.InFlight?
    ensures Valid(s) ==> Valid(r.next)
    ensures KeepsFinal(s, r.next)
    ensures r.response.None?
    ensures r.next.pending == s.pending && r.next.timers == s.timers
    ensures r.next.requests.Keys == s.requests.Keys
    ensures forall other :: other in s.requests && other != id ==> r.next.requests[other] == s.requests[other]
    ensures r.next.requests[id].text == s.requests[id].text
    ensures r.next.requests[id].outcome == s.requests[id].outcome
    ensures result.DispatchFail? ==> ReplyOf(r.next, id) == Some(ProcessFailure(result.message))
    ensures result.DispatchOk? ==>
      match s.requests[id].outcome
      case Unsettled => ReplyOf(r.next, id).None?
      case Resolved(v) => ReplyOf(r.next, id) == Some(HttpResponse(200, Data(v)))
      case Rejected(m) => ReplyOf(r.next, id) == Some(ProcessFailure(m))
  {
    var d := match result
      case DispatchOk => Delivered
      case DispatchFail(m) => DispatchFailed(m);
    Transition(s.(requests := s.requests[id := s.requests[id].(dispatch := d)]), None)
  }

  /** An array body stands for its first element; the rest is ignored. */
  function Normalise(body: JsValue): (data: JsValue)
    ensures !body.JArr? ==> data == body
    ensures body.JArr? && |body.items| > 0 ==> data == body.items[0]
    ensures body.JArr? && |body.items| == 0 ==> data == JUndefined
    ensures data.JArr? ==> body.JArr? && |body.items| > 0 && body.items[0] == data
  {
    if body.JArr? then (if |body.items| > 0 then body.items[0] else JUndefined) else body
  }

  /** The `db_id` a callback body names, undefined when the body cannot be read. */
  function CallbackId(body: JsValue): JsValue {
    match Prop(Normalise(body), "db_id")
    case None => JUndefined
    case Some(v) => v
  }

  /** The callback names an id that is registered right now. Only a string can match a key
      of the registry, whose keys are all strings. */
  predicate NamesPending(s: State, body: JsValue) {
    var k := CallbackId(body);
    k.JStr? && k.s in s.pending
  }

  /** The `error` field of a callback body. */
  function CallbackError(body: JsValue): JsValue
    requires !Nullish(Normalise(body))
  {
    Prop(Normalise(body), "error").value
  }

  /** The value a successful callback resolves with: exactly the four result fields of the
      body, whatever else it carries. */
  function PayloadOf(data: JsValue): (p: ResultPayload)
    requires !Nullish(data)
    ensures data.JObj? && "sentiment" in data.fields ==> p.sentiment == data.fields["sentiment"]
    ensures data.JObj? && "explanation" in data.fields ==> p.explanation == data.fields["explanation"]
    ensures data.JObj? && "confidence" in data.fields ==> p.confidence == data.fields["confidence"]
    ensures data.JObj? && "final_result" in data.fields ==> p.finalResult == data.fields["final_result"]
    ensures data.JObj? && "sentiment" !in data.fields ==> p.sentiment == JUndefined
    ensures data.JObj? && "explanation" !in data.fields ==> p.explanation == JUndefined
    ensures data.JObj? && "confidence" !in data.fields ==> p.confidence == JUndefined
    ensures data.JObj? && "final_result" !in data.fields ==> p.finalResult == JUndefined
    ensures !data.JObj? ==> p == ResultPayload(JUndefined, JUndefined, JUndefined, JUndefined)
  {
    ResultPayload(
      Prop(data, "sentiment").value,
      Prop(data, "explanation").value,
      Prop(data, "confidence").value,
      Prop(data, "final_result").value)
  }

  /** POST /api/n8n-callback. Every answer other than 200 leaves the state as it was; a 200
      settles the named request exactly once and deletes its registry entry. */
  function Callback(s: State, body: JsValue): (r: Transition)
    requires Valid(s)
    ensures Valid(r.next)
    ensures r.response.Some?
    ensures KeepsFinal(s, r.next)
    ensures r.response.value.code != 200 ==> r.next == s
    ensures r.next.timers == s.timers
    ensures Nullish(Normalise(body)) ==> r == Transition(s, Some(EngineFailure))
    ensures !Nullish(Normalise(body)) && !Truthy(CallbackId(body)) ==> r == Transition(s, Some(MissingId))
    ensures (!Nullish(Normalise(body)) && Truthy(CallbackId(body)) && !NamesPending(s, body)
             && ToStr(CallbackId(body)).Some?) ==> r == Transition(s, Some(UnknownId))
    ensures (!Nullish(Normalise(body)) && Truthy(CallbackId(body)) && !NamesPending(s, body)
             && ToStr(CallbackId(body)).None?) ==> r == Transition(s, Some(EngineFailure))
    ensures !Nullish(Normalise(body)) && Truthy(CallbackId(body)) && NamesPending(s, body) ==>
      var k := CallbackId(body).s;
      if !Truthy(CallbackError(body)) then
        && r.response == Some(CallbackDone)
        && SettledOnly(s, r.next, k, Resolved(PayloadOf(Normalise(body))))
      else if ToStr(CallbackError(body)).None? then
        r == Transition(s, Some(EngineFailure))
      else
        && r.response == Some(CallbackDone)
        && SettledOnly(s, r.next, k, Rejected(ToStr(CallbackError(body)).value))
  {
    var data := Normalise(body);
    match Prop(data, "db_id")
    case None => Transition(s, Some(EngineFailure))
    case Some(dbId) =>
      if !Truthy(dbId) then Transition(s, Some(MissingId))
      else if !(dbId.JStr? && dbId.s in s.pending) then
        // the warning logged before the 404 converts the id to text, which can throw
        if ToStr(dbId).None? then Transition(s, Some(EngineFailure))
        else Transition(s, Some(UnknownId))
      else
        var err := Prop(data, "error").value;
        if Truthy(err) then
          match ToStr(err)
          case None => Transition(s, Some(EngineFailure))
          case Some(m) => Transition(Settle(s, dbId.s, Rejected(m)), Some(CallbackDone))
        else
          Transition(Settle(s, dbId.s, Resolved(PayloadOf(data))), Some(CallbackDone))
  }

  /** The five-minute timer of `id` fires: if the id is still registered, delete it and
      reject with "Request timeout"; otherwise do nothing at all. */
  function TimerFire(s: State, id: Id): (r: Transition)
    requires Valid(s) && id in s.timers
    ensures Valid(r.next)
    ensures KeepsFinal(s, r.next)
    ensures r.response.None?
    ensures r.next.timers == s.timers - {id}
    ensures id in s.pending ==> SettledOnly(s, r.next.(timers := s.timers), id, Rejected(TimeoutMessage))
    ensures id !in s.pending ==> r.next.pending == s.pending && r.next.requests == s.requests
    ensures id !in r.next.pending && !OutcomeOf(r.next, id).Unsettled?
  {
    var s' := s.(timers := s.timers - {id});
    if id in s.pending then Transition(Settle(s', id, Rejected(TimeoutMessage)), None)
    else Transition(s', None)
  }

  /** GET /api/health: reports how many callers are still waiting for a settlement. */
  function Health(s: State): (r: Transition)
    ensures r.next == s
    ensures r.response.Some? && r.response.value.code == 200 && r.response.value.body.HealthReport?
    ensures r.response.value.body.pendingRequests == |s.pending|
    ensures Valid(s) ==> r.response.value.body.pendingRequests == |AwaitingSettlement(s)|
  {
    assert Valid(s) ==> s.pending == AwaitingSettlement(s) by {
      if Valid(s) {
        RegistryIsAwaitingSettlement(s);
      }
    }
    Transition(s, Some(HttpResponse(200, HealthReport(|s.pending|))))
  }

  /** GET /api/status/:requestId: "pending" exactly while the request awaits settlement; an id
      never issued and one already settled give the same answer. */
  function Status(s: State, requestId: string): (r: Transition)
    ensures r.next == s
    ensures r.response.Some? && r.response.value.code == 200 && r.response.value.body.StatusReport?
    ensures r.response.value.body.requestId == requestId
    ensures r.response.value.body.status == PendingStatus <==> requestId in s.pending
    ensures r.response.value.body.status in {PendingStatus, SettledStatus}
    ensures Valid(s) ==>
      (r.response.value.body.status == PendingStatus <==> OutcomeOf(s, requestId).Unsettled? && requestId in s.requests)
  {
    var status := if requestId in s.pending then PendingStatus else SettledStatus;
    Transition(s, Some(HttpResponse(200, StatusReport(requestId, status))))
  }

  /** The events the environment can produce in state `s`: a fresh id for every submission,
      one settlement per outbound call, one firing per armed timer. */
  predicate Enabled(s: State, e: Event) {
    match e
    case SubmitText(_, id) => Fresh(s, id)
    case DispatchSettled(id, _) => id in s.requests && s.requests[id].dispatch.InFlight?
    case TimerFires(id) => id in s.timers
    case _ => true
  }

  /** One event. */
  function Step(s: State, e: Event): (r: Transition)
    requires Valid(s) && Enabled(s, e)
    ensures Valid(r.next)
    ensures KeepsFinal(s, r.next)
    ensures !e.SubmitText? ==> r.next.timers <= s.timers
  {
    match e
    case SubmitText(body, id) => Submit(s, body, id)
    case DispatchSettled(id, result) => Dispatched(s, id, result)
    case CallbackArrives(body) => Callback(s, body)
    case TimerFires(id) => TimerFire(s, id)
    case HealthCheck => Health(s)
    case StatusQuery(requestId) => Status(s, requestId)
  }
}
