/**
 End-to-end exchanges between a caller, the workflow's callback and the timer, each
 stated against the handlers. Every scenario starts from an arbitrary valid state, so it
 holds whatever other requests are in flight.
 */
module Scenarios {
  import opened Options
  import opened JsValues
  import opened Http
  import opened Registry
  import opened Handlers

  function TextBody(text: string): JsValue {
    JObj(map["text_to_analyze" := JStr(text)])
  }

  function ResultBody(id: Id): JsValue {
    JObj(map["db_id" := JStr(id), "sentiment" := JStr("positive"), "confidence" := JNum("0.9")])
  }

  function ErrorBody(id: Id, error: JsValue): JsValue {
    JObj(map["db_id" := JStr(id), "error" := error])
  }

  /** The state once `id` was submitted with text "hello" and its outbound call ended as `d`. */
  function Submitted(s: State, id: Id, d: DispatchResult): (t: State)
    requires Valid(s) && Fresh(s, id)
    ensures Valid(t) && t.pending == s.pending + {id} && id in t.timers
    ensures t.requests[id] == Request(JStr("hello"), if d.DispatchOk? then Delivered else DispatchFailed(d.message), Unsettled)
  {
    var s1 := Submit(s, TextBody("hello"), id).next;
    Dispatched(s1, id, d).next
  }

  /** What the handlers read from ResultBody: the id, no error, and the payload fields. */
  lemma ResultBodyFields(id: Id)
    requires id != ""
    ensures !Nullish(Normalise(ResultBody(id)))
    ensures CallbackId(ResultBody(id)) == JStr(id) && Truthy(CallbackId(ResultBody(id)))
    ensures !Truthy(CallbackError(ResultBody(id)))
    ensures PayloadOf(Normalise(ResultBody(id))) == ResultPayload(JStr("positive"), JUndefined, JNum("0.9"), JUndefined)
  {
    var body := ResultBody(id);
    assert "error" !in body.fields && "explanation" !in body.fields && "final_result" !in body.fields;
  }

  /** What the handlers read from ErrorBody: the id and the error value. */
  lemma ErrorBodyFields(id: Id, error: JsValue)
    requires id != ""
    ensures !Nullish(Normalise(ErrorBody(id, error)))
    ensures CallbackId(ErrorBody(id, error)) == JStr(id) && Truthy(CallbackId(ErrorBody(id, error)))
    ensures CallbackError(ErrorBody(id, error)) == error
  {
  }

  /** A submission without text is refused with 400 and registers nothing. */
  lemma MissingTextIsRefused(s: State, id: Id)
    requires Valid(s) && Fresh(s, id)
    ensures Submit(s, JObj(map[]), id) == Transition(s, Some(BadText))
    ensures Submit(s, TextBody(""), id) == Transition(s, Some(BadText))
  {
  }

  /** The callback arrives before the timeout: the caller receives exactly the four result
      fields of the callback, absent ones as undefined, and the registry is as before. */
  lemma CallbackBeforeTimeout(s: State, id: Id)
    requires Valid(s) && Fresh(s, id) && id != ""
    ensures var t := Callback(Submitted(s, id, DispatchOk), ResultBody(id));
      && t.response == Some(CallbackDone)
      && t.next.pending == s.pending
      && ReplyOf(t.next, id) == Some(HttpResponse(200, Data(ResultPayload(JStr("positive"), JUndefined, JNum("0.9"), JUndefined))))
  {
    var body := ResultBody(id);
    var v := ResultPayload(JStr("positive"), JUndefined, JNum("0.9"), JUndefined);
    ResultBodyFields(id);
    var t0 := Submitted(s, id, DispatchOk);
    assert NamesPending(t0, body);
    var t := Callback(t0, body);
    assert SettledOnly(t0, t.next, id, Resolved(v));
    assert t.next.requests[id] == Request(JStr("hello"), Delivered, Resolved(v));
  }

  /** No callback within the window: the timer rejects with "Request timeout", and a late
      callback for the same id is refused with 404 without any effect. */
  lemma TimeoutThenLateCallback(s: State, id: Id)
    requires Valid(s) && Fresh(s, id) && id != ""
    ensures var t := TimerFire(Submitted(s, id, DispatchOk), id).next;
      && ReplyOf(t, id) == Some(ProcessFailure(TimeoutMessage))
      && id !in t.pending
      && Callback(t, ResultBody(id)) == Transition(t, Some(UnknownId))
  {
    var body := ResultBody(id);
    ResultBodyFields(id);
    var t0 := Submitted(s, id, DispatchOk);
    var t := TimerFire(t0, id).next;
    assert SettledOnly(t0.(timers := t0.timers - {id}), t, id, Rejected(TimeoutMessage));
    assert !NamesPending(t, body);
  }

  /** A callback sent as an array is handled as its first element alone. */
  lemma ArrayCallbackActsAsFirstElement(s: State, first: JsValue, rest: seq<JsValue>)
    requires Valid(s) && !first.JArr?
    ensures Callback(s, JArr([first] + rest)) == Callback(s, first)
  {
  }

  /** An empty array as callback body makes the destructuring throw: 500, no effect. */
  lemma EmptyArrayCallbackFails(s: State)
    requires Valid(s)
    ensures Callback(s, JArr([])) == Transition(s, Some(EngineFailure))
  {
  }

  /** As written, a failed outbound call answers the caller at once but does not remove the
      entry itself: status still says "pending", and the entry stays until a callback for it
      arrives, which is accepted without changing the caller's answer, or its timer fires. */
  lemma DispatchFailureKeepsEntry(s: State, id: Id, message: string)
    requires Valid(s) && Fresh(s, id) && id != ""
    ensures var t := Submitted(s, id, DispatchFail(message));
      && ReplyOf(t, id) == Some(ProcessFailure(message))
      && id in t.pending
      && |t.pending| == |s.pending| + 1
      && Status(t, id).response.value.body.status == PendingStatus
      && Callback(t, ResultBody(id)).response == Some(CallbackDone)
      && ReplyOf(Callback(t, ResultBody(id)).next, id) == ReplyOf(t, id)
      && Callback(t, ResultBody(id)).next.pending == s.pending
      && TimerFire(t, id).next.pending == s.pending
  {
    var body := ResultBody(id);
    ResultBodyFields(id);
    var t := Submitted(s, id, DispatchFail(message));
    assert ReplyOf(t, id) == Some(ProcessFailure(message));
    assert NamesPending(t, body);
    var c := Callback(t, body);
    assert SettledOnly(t, c.next, id, Resolved(PayloadOf(Normalise(body))));
    assert c.next.requests[id].dispatch == DispatchFailed(message);
    var f := TimerFire(t, id);
    assert SettledOnly(t.(timers := t.timers - {id}), f.next, id, Rejected(TimeoutMessage));
  }

  /** Duplicate delivery: the first callback settles the request, the second gets 404 and
      changes nothing. */
  lemma DuplicateCallbackIsRefused(s: State, id: Id)
    requires Valid(s) && Fresh(s, id) && id != ""
    ensures var t := Callback(Submitted(s, id, DispatchOk), ResultBody(id));
      && t.response == Some(CallbackDone)
      && Callback(t.next, ResultBody(id)) == Transition(t.next, Some(UnknownId))
  {
    var body := ResultBody(id);
    ResultBodyFields(id);
    var t0 := Submitted(s, id, DispatchOk);
    assert NamesPending(t0, body);
    var t := Callback(t0, body);
    assert SettledOnly(t0, t.next, id, Resolved(PayloadOf(Normalise(body))));
    assert !NamesPending(t.next, body);
  }

  /** The timer of a request a callback already settled only disarms itself: registry and
      outcomes stay exactly as the callback left them. */
  lemma TimerAfterCallbackIsNoOp(s: State, body: JsValue)
    requires Valid(s)
    requires Callback(s, body).response == Some(CallbackDone)
    ensures CallbackId(body).JStr? && CallbackId(body).s in s.timers
    ensures var t := Callback(s, body).next;
      var u := TimerFire(t, CallbackId(body).s).next;
      u.pending == t.pending && u.requests == t.requests
  {
  }

  /** A callback whose `error` converts to empty text rejects the request with an empty
      message, and the caller is then answered with the fallback "Failed to process text". */
  lemma BlankErrorFallsBack(s: State, id: Id)
    requires Valid(s) && Fresh(s, id) && id != ""
    ensures var t := Callback(Submitted(s, id, DispatchOk), ErrorBody(id, JArr([])));
      && t.response == Some(CallbackDone)
      && ReplyOf(t.next, id) == Some(HttpResponse(500, Failure(Text(ProcessFallback))))
  {
    var body := ErrorBody(id, JArr([]));
    ErrorBodyFields(id, JArr([]));
    EmptyArrayIsTruthyButBlank();
    var t0 := Submitted(s, id, DispatchOk);
    assert NamesPending(t0, body);
    var t := Callback(t0, body);
    assert SettledOnly(t0, t.next, id, Rejected(""));
  }

  /** A callback whose `error` is an object with its own `toString` key throws inside the
      handler: the callback is answered 500 and the request stays registered and unsettled. */
  lemma UnconvertibleErrorLeavesEntry(s: State, id: Id)
    requires Valid(s) && Fresh(s, id) && id != ""
    ensures var t := Submitted(s, id, DispatchOk);
      Callback(t, ErrorBody(id, JObj(map["toString" := JStr("x")]))) == Transition(t, Some(EngineFailure))
  {
    var error := JObj(map["toString" := JStr("x")]);
    ErrorBodyFields(id, error);
    assert ToStr(error).None?;
    assert NamesPending(Submitted(s, id, DispatchOk), ErrorBody(id, error));
  }

  /** The 404 path logs the unknown id through a template literal first; an id object
      carrying its own `toString` key makes that conversion throw: 500, no effect. */
  lemma UnconvertibleIdIsRefused(s: State)
    requires Valid(s)
    ensures Callback(s, JObj(map["db_id" := JObj(map["toString" := JNum("1")])])) == Transition(s, Some(EngineFailure))
  {
    var id := JObj(map["toString" := JNum("1")]);
    var body := JObj(map["db_id" := id]);
    assert Prop(body, "db_id") == Some(id);
    assert ToStr(id).None?;
  }
}
