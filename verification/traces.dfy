/**
 Sequences of events. The lemmas here state what holds for every interleaving the
 environment can produce: each request is settled at most once, its caller is answered at
 most once and, once both its outbound call and its timer are done, exactly once, a
 resolved caller receives exactly what a callback for its id carried, and the registry
 empties once every armed timer has fired.
 */
module Traces {
  import opened Options
  import opened JsValues
  import opened Http
  import opened Registry
  import opened Handlers

  /** Every event of `es` can happen in the state the previous ones lead to. */
  predicate Admissible(s: State, es: seq<Event>)
    decreases |es|
  {
    |es| == 0 || (Valid(s) && Enabled(s, es[0]) && Admissible(Step(s, es[0]).next, es[1..]))
  }

  /** The state after the events `es`. */
  function Run(s: State, es: seq<Event>): (r: State)
    requires Valid(s) && Admissible(s, es)
    ensures Valid(r)
    ensures s.requests.Keys <= r.requests.Keys
    decreases |es|
  {
    if |es| == 0 then s else Run(Step(s, es[0]).next, es[1..])
  }

  /** A settled promise keeps its outcome through any later events. */
  lemma {:induction false} SettlementIsFinal(s: State, es: seq<Event>, id: Id)
    requires Valid(s) && Admissible(s, es)
    requires !OutcomeOf(s, id).Unsettled?
    ensures OutcomeOf(Run(s, es), id) == OutcomeOf(s, id)
    decreases |es|
  {
    if |es| > 0 {
      SettlementIsFinal(Step(s, es[0]).next, es[1..], id);
    }
  }

  /** How many events of `es` change the outcome of `id`. */
  function Settlements(s: State, es: seq<Event>, id: Id): nat
    requires Valid(s) && Admissible(s, es)
    decreases |es|
  {
    if |es| == 0 then 0
    else
      var t := Step(s, es[0]).next;
      (if OutcomeOf(t, id) != OutcomeOf(s, id) then 1 else 0) + Settlements(t, es[1..], id)
  }

  /** Callback and timer race for each request, and at most one of them settles it: no event
      sequence changes a request's outcome twice, and none changes a settled one. */
  lemma {:induction false} SettledAtMostOnce(s: State, es: seq<Event>, id: Id)
    requires Valid(s) && Admissible(s, es)
    ensures Settlements(s, es, id) <= (if OutcomeOf(s, id).Unsettled? then 1 else 0)
    decreases |es|
  {
    if |es| > 0 {
      var t := Step(s, es[0]).next;
      SettledAtMostOnce(t, es[1..], id);
    }
  }

  /** An answer given to a caller is never replaced by another. */
  lemma {:induction false} AnswerIsFinal(s: State, es: seq<Event>, id: Id)
    requires Valid(s) && Admissible(s, es)
    requires ReplyOf(s, id).Some?
    ensures ReplyOf(Run(s, es), id) == ReplyOf(s, id)
    decreases |es|
  {
    if |es| > 0 {
      AnswerIsFinal(Step(s, es[0]).next, es[1..], id);
    }
  }

  /** How many events of `es` send the caller of `id` its answer. */
  function Answers(s: State, es: seq<Event>, id: Id): nat
    requires Valid(s) && Admissible(s, es)
    decreases |es|
  {
    if |es| == 0 then 0
    else
      var t := Step(s, es[0]).next;
      (if ReplyOf(t, id) != ReplyOf(s, id) then 1 else 0) + Answers(t, es[1..], id)
  }

  /** The suspended caller is answered at most once, and not at all if it already was. */
  lemma {:induction false} AnsweredAtMostOnce(s: State, es: seq<Event>, id: Id)
    requires Valid(s) && Admissible(s, es)
    ensures Answers(s, es, id) <= (if ReplyOf(s, id).None? then 1 else 0)
    decreases |es|
  {
    if |es| > 0 {
      AnsweredAtMostOnce(Step(s, es[0]).next, es[1..], id);
    }
  }

  /** The timer of `id` has fired. */
  predicate TimerFired(s: State, id: Id) {
    id in s.requests && id !in s.timers
  }

  /** The outbound call of `id` has finished, one way or the other. */
  predicate DispatchFinished(s: State, id: Id) {
    id in s.requests && !s.requests[id].dispatch.InFlight?
  }

  /** `es` fires the timer of `id`. */
  predicate HasFiring(es: seq<Event>, id: Id) {
    TimerFires(id) in es
  }

  /** `es` ends the outbound call of `id`. */
  predicate HasDispatch(es: seq<Event>, id: Id) {
    exists k :: 0 <= k < |es| && es[k].DispatchSettled? && es[k].id == id
  }

  /** Once fired, a timer is gone for good; a firing within `es` is seen at its end. */
  lemma {:induction false} TimerFiresOnce(s: State, es: seq<Event>, id: Id)
    requires Valid(s) && Admissible(s, es)
    requires TimerFired(s, id) || HasFiring(es, id)
    ensures TimerFired(Run(s, es), id)
    decreases |es|
  {
    if |es| > 0 {
      var t := Step(s, es[0]).next;
      if es[0] != TimerFires(id) && !TimerFired(s, id) {
        assert HasFiring(es[1..], id) by {
          var k :| 0 <= k < |es| && es[k] == TimerFires(id);
          assert es[1..][k - 1] == es[k];
        }
      }
      TimerFiresOnce(t, es[1..], id);
    }
  }

  /** Once finished, an outbound call stays finished; a settlement within `es` is seen at its end. */
  lemma {:induction false} DispatchFinishesOnce(s: State, es: seq<Event>, id: Id)
    requires Valid(s) && Admissible(s, es)
    requires DispatchFinished(s, id) || HasDispatch(es, id)
    ensures DispatchFinished(Run(s, es), id)
    decreases |es|
  {
    if |es| > 0 {
      var t := Step(s, es[0]).next;
      if !(es[0].DispatchSettled? && es[0].id == id) && !DispatchFinished(s, id) {
        var k :| 0 <= k < |es| && es[k].DispatchSettled? && es[k].id == id;
        assert es[1..][k - 1] == es[k];
      }
      DispatchFinishesOnce(t, es[1..], id);
    }
  }

  /** No caller waits forever: once its outbound call has finished and its timer has fired,
      before or during `es`, the caller has its answer, and by AnsweredAtMostOnce it is the only one. */
  lemma EveryCallerIsAnswered(s: State, es: seq<Event>, id: Id)
    requires Valid(s) && Admissible(s, es)
    requires TimerFired(s, id) || HasFiring(es, id)
    requires DispatchFinished(s, id) || HasDispatch(es, id)
    ensures ReplyOf(Run(s, es), id).Some?
  {
    TimerFiresOnce(s, es, id);
    DispatchFinishesOnce(s, es, id);
  }

  /** `es` submits nothing new. */
  predicate NoSubmissions(es: seq<Event>) {
    forall k :: 0 <= k < |es| ==> !es[k].SubmitText?
  }

  /** Only a submission arms a timer. */
  lemma {:induction false} TimersOnlyShrink(s: State, es: seq<Event>)
    requires Valid(s) && Admissible(s, es)
    requires NoSubmissions(es)
    ensures Run(s, es).timers <= s.timers
    decreases |es|
  {
    if |es| > 0 {
      assert !es[0].SubmitText?;
      var t := Step(s, es[0]).next;
      assert NoSubmissions(es[1..]) by {
        forall k | 0 <= k < |es| - 1 ensures !es[1..][k].SubmitText? {
          assert es[1..][k] == es[k + 1];
        }
      }
      TimersOnlyShrink(t, es[1..]);
    }
  }

  /** Nothing leaks: with no new submissions, once every armed timer has fired the registry is
      empty, whatever callbacks and outbound results came in between, and health reports 0. */
  lemma RegistryDrains(s: State, es: seq<Event>)
    requires Valid(s) && Admissible(s, es)
    requires NoSubmissions(es)
    requires forall id :: id in s.timers ==> HasFiring(es, id)
    ensures Run(s, es).pending == {} && Run(s, es).timers == {}
    ensures Health(Run(s, es)).response.value.body.pendingRequests == 0
  {
    var r := Run(s, es);
    TimersOnlyShrink(s, es);
    forall id | id in s.timers
      ensures id !in r.timers
    {
      TimerFiresOnce(s, es, id);
    }
  }

  /** Callback `body` resolves request `id` with value `v`. */
  predicate ResolvesWith(body: JsValue, id: Id, v: ResultPayload) {
    && !Nullish(Normalise(body))
    && CallbackId(body) == JStr(id)
    && !Truthy(CallbackError(body))
    && PayloadOf(Normalise(body)) == v
  }

  /** Callback `body` rejects request `id` with message `m`. */
  predicate RejectsWith(body: JsValue, id: Id, m: string) {
    && !Nullish(Normalise(body))
    && CallbackId(body) == JStr(id)
    && Truthy(CallbackError(body))
    && ToStr(CallbackError(body)) == Some(m)
  }

  /** Which event can settle a request, and how: only a callback naming it resolves it, with
      that callback's payload; only such a callback or its own timer rejects it. */
  lemma SettlementProvenance(s: State, e: Event, id: Id)
    requires Valid(s) && Enabled(s, e)
    requires OutcomeOf(Step(s, e).next, id) != OutcomeOf(s, id)
    ensures OutcomeOf(s, id).Unsettled? && id in s.pending
    ensures OutcomeOf(Step(s, e).next, id).Resolved? ==>
      e.CallbackArrives? && ResolvesWith(e.body, id, OutcomeOf(Step(s, e).next, id).value)
    ensures OutcomeOf(Step(s, e).next, id).Rejected? ==>
      || (e.CallbackArrives? && RejectsWith(e.body, id, OutcomeOf(Step(s, e).next, id).message))
      || (e == TimerFires(id) && OutcomeOf(Step(s, e).next, id).message == TimeoutMessage)
  {
  }

  /** A caller answered with data receives exactly the payload of a callback for its id
      among the events, never a value from anywhere else. */
  lemma {:induction false} ResolvedOnlyByCallback(s: State, es: seq<Event>, id: Id)
    requires Valid(s) && Admissible(s, es)
    requires OutcomeOf(s, id).Unsettled?
    requires OutcomeOf(Run(s, es), id).Resolved?
    ensures exists k ::
      0 <= k < |es| && es[k].CallbackArrives? && ResolvesWith(es[k].body, id, OutcomeOf(Run(s, es), id).value)
    decreases |es|
  {
    var t := Step(s, es[0]).next;
    var v := OutcomeOf(Run(s, es), id).value;
    assert Run(s, es) == Run(t, es[1..]);
    if OutcomeOf(t, id) != OutcomeOf(s, id) {
      SettlementProvenance(s, es[0], id);
      SettlementIsFinal(t, es[1..], id);
      assert es[0].CallbackArrives? && ResolvesWith(es[0].body, id, v);
    } else {
      ResolvedOnlyByCallback(t, es[1..], id);
      var k :| 0 <= k < |es[1..]| && es[1..][k].CallbackArrives? && ResolvesWith(es[1..][k].body, id, v);
      assert es[k + 1] == es[1..][k];
    }
  }
}
