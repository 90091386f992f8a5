# Pending-request correlation in the text-analysis backend

`server.js` connects two HTTP exchanges. A caller posts a text to `/api/process-text`. The
handler issues a fresh request id, stores the `{resolve, reject}` pair of a new promise under
that id in the module-level `pendingRequests` Map, and arms a five-minute timer. It then posts
the text and id to an external workflow webhook and suspends on the promise. Later the
workflow posts the result to `/api/n8n-callback`. That handler looks up the id, settles the
promise and deletes the entry. If no callback comes, the timer deletes the entry and rejects
with "Request timeout". `/api/health` reports the size of the Map, and
`/api/status/:requestId` reports whether an id is in it.

This project models that registry as a pure state machine. Node runs each handler's
synchronous section without preemption, so every handler, and every point where the
suspended handler resumes, is one atomic event:

- `Registry` holds the state:
  - `pending` is the Map's key set.
  - `requests` is every request ever issued, with its text, the state of its outbound call
    and the outcome of its promise.
  - `timers` holds the armed timers.
- `Handlers` has one pure function per event (`Submit`, `Dispatched`, `Callback`,
  `TimerFire`, `Health`, `Status`) and `Step`, which dispatches an `Event` to them.
- The suspended caller's answer is `CallerReply`. It is a function of the outbound call's
  state and the promise's outcome.
- `JsValues` models the JavaScript semantics the handlers depend on: JSON body shapes,
  truthiness, property lookup and destructuring (which throws on `undefined`/`null`), and
  `String(x)` as applied by `new Error(x)`.
- `Traces` runs event sequences and proves the properties that hold for every interleaving.
- `Scenarios` walks through concrete exchanges.

The environment's freedom is explicit. Each submission gets an id that is fresh with respect
to the whole state (`Fresh`). Each outbound call ends once, as `DispatchOk` or
`DispatchFail(message)`. Each armed timer fires once, at any time the environment chooses
(`Enabled`).

### Behaviour of the code worth noting

- A failed outbound call does not itself remove the registry entry. The catch block at
  server.js:72-77 only answers the caller. The entry stays registered until its timer fires
  or a callback for it arrives. Until then, status reports it as "pending". A callback for it
  is accepted and removes the entry without changing the caller's answer
  (`Scenarios.DispatchFailureKeepsEntry`).
- Registration has no duplicate check: `set` at server.js:39 would overwrite an existing
  entry. The model makes the freshness of `uuidv4()` a precondition of `Submit`.
- A successful callback does not cancel the timer. The timer still fires later and does
  nothing but disarm itself (`Scenarios.TimerAfterCallbackIsNoOp`).

## Model

| member | source | states |
|---|---|---|
| Registry.Register | server.js:38-47 | Registration under a fresh id adds exactly one registry entry and one armed timer, records a new in-flight, unsettled request, leaves every other request unchanged and preserves the registry invariant |
| Registry.Settle | server.js:113-126 | Settling removes exactly that id from the registry, gives its request the outcome, and changes no other request and no timer |
| Registry.CallerReply | server.js:64-77 | The caller is answered exactly when the outbound call failed (500 with its message or the fallback text), or when it succeeded and the promise settled (200 with the resolved value, or 500 with the rejection message); a 200 always carries the resolved value |
| Registry.RegistryIsAwaitingSettlement | server.js:15 | In every valid state the registry holds exactly the ids whose promise is unsettled |
| Registry.InitIsValid | server.js:15 | The empty start-up registry satisfies the invariant |
| Http.ProcessFailure | server.js:74-77 | The 500 answer of the text route always has non-empty error text: the error's message if it has one, otherwise exactly "Failed to process text" |
| JsValues.Prop | server.js:93 | Reading a property, by destructuring here and at server.js:25 or by `data.sentiment` and the like at server.js:118-121, throws exactly on undefined and null; otherwise it gives the object's own field when present, and undefined when the field is missing or the value is not an object |
| JsValues.Truthy | server.js:27 | The falsy values, as tested by `!text_to_analyze` here and by `!db_id` and `if (error)` at server.js:95 and 113, are exactly undefined, null, false, 0 and the empty string |
| JsValues.ToStr | server.js:114 | `String(error)`, as `new Error(error)` applies it, succeeds exactly when no object it reaches has its own `toString` key; a string converts to itself and an empty array to empty text |
| JsValues.Join | server.js:114 | Joining array elements from index i converts exactly when every element from i on is convertible |
| Handlers.Normalise | server.js:86-91 | An array body stands for its first element, and an empty array for undefined; any other body stands for itself; the result is an array only when the body's first element is one |
| Handlers.PayloadOf | server.js:117-122 | The resolved value holds exactly the body's `sentiment`, `explanation`, `confidence` and `final_result`, each undefined when the body lacks it |
| Handlers.Submit | server.js:23-48 | An unreadable body gives 500 and a falsy `text_to_analyze` gives 400 "Text input is required", both with the state unchanged; otherwise no response yet, and exactly one new entry and one new timer under the fresh id, with every other request unchanged; every outcome keeps the invariant and what is already final |
| Handlers.Dispatched | server.js:58-77 | The end of the outbound call touches neither registry nor timers, even on failure; a failure answers the caller at once with 500, a success answers it only if the promise has already settled |
| Handlers.Callback | server.js:84-140 | An array body is read as its first element. An unreadable body gives 500, a falsy `db_id` gives 400 and an id not registered gives 404, or 500 when the warning at server.js:105 cannot convert that id to text, each with no effect; a truthy `error` that cannot be converted to a string gives 500 with no effect. Otherwise the response is 200, the entry is removed, and the request is rejected with the error's string form or resolved with exactly the four result fields; no timer changes |
| Handlers.TimerFire | server.js:42-47 | The timer disarms itself. If its id is still registered, it removes the entry and rejects with "Request timeout"; otherwise registry and requests are unchanged. Afterwards the id is unregistered and settled |
| Handlers.Health | server.js:145-151 | Health reports the registry size, which in a valid state is the number of unsettled requests, and changes nothing |
| Handlers.Status | server.js:156-164 | Status echoes the id and says "pending" iff the id is registered (in a valid state, iff it was issued and is unsettled), and "completed_or_not_found" otherwise; it changes nothing |
| Handlers.Step | server.js:23-164 | Every enabled event preserves the invariant. Issued ids stay issued, settled outcomes and given answers never change, fired timers are never re-armed, finished outbound calls stay finished, and only a submission arms a timer |
| Traces.Run | server.js:15-164 | Every admissible event sequence ends in a valid state that still knows every request issued before it |
| Traces.SettlementIsFinal | server.js:42-126 | Once settled by callback or timer, a request keeps that outcome through any later events |
| Traces.SettledAtMostOnce | server.js:42-126 | Over any event sequence, the outcome of a request changes at most once, and never if it was already settled |
| Traces.AnswerIsFinal | server.js:64-77 | An answer given to a caller is never replaced |
| Traces.AnsweredAtMostOnce | server.js:64-77 | Over any event sequence, a caller is answered at most once, and not at all if it already was |
| Traces.TimerFiresOnce | server.js:42-47 | After a timer's firing, or for one that already fired, the timer stays disarmed |
| Traces.DispatchFinishesOnce | server.js:58-62 | An outbound call that has finished, or that finishes during the sequence, is finished at its end |
| Traces.EveryCallerIsAnswered | server.js:42-77 | Once a request's outbound call has finished and its timer has fired, whether before the sequence or during it, the caller has an answer |
| Traces.TimersOnlyShrink | server.js:42-47 | Without submissions, no new timer is armed: the armed timers at the end are a subset of those at the start |
| Traces.RegistryDrains | server.js:42-47 | With no new submissions, once every armed timer has fired the registry is empty and health reports 0, whatever callbacks came in between |
| Traces.SettlementProvenance | server.js:102-126 | Only a callback naming the id, with a falsy error, resolves a request, and it resolves it with that callback's payload. Only such a callback with a truthy error, or the request's own timer with "Request timeout", rejects it. Only a registered, unsettled request can be settled |
| Traces.ResolvedOnlyByCallback | server.js:113-122 | A request resolved by the end of any event sequence got exactly the payload of some callback in the sequence that named its id with a falsy error |
| JsValues.SingletonArrayConvertsAsElement | server.js:114 | `String([e])` is `String(e)`, or empty text when `e` is undefined or null |
| JsValues.EmptyArrayIsTruthyButBlank | server.js:113-114 | An empty array passes the `if (error)` test but converts to empty text |
| Scenarios.MissingTextIsRefused | server.js:27-32 | A body without `text_to_analyze`, or with empty text, gets 400 and registers nothing |
| Scenarios.CallbackBeforeTimeout | server.js:113-126 | A callback carrying sentiment and confidence makes the caller receive exactly those fields, with explanation and final result undefined, and the registry returns to its previous contents |
| Scenarios.TimeoutThenLateCallback | server.js:42-47 | After the timeout the caller gets 500 "Request timeout", and a late callback gets 404 with no effect |
| Scenarios.ArrayCallbackActsAsFirstElement | server.js:89-91 | A callback sent as an array whose first element is not itself an array is handled exactly as that first element |
| Scenarios.EmptyArrayCallbackFails | server.js:89-93 | An empty-array callback body makes the destructuring throw: 500 with no effect |
| Scenarios.DispatchFailureKeepsEntry | server.js:72-77 | After a failed outbound call the caller gets 500 at once. The entry stays registered and reported as pending, a callback for it is accepted and removes it without changing the caller's answer, and otherwise the timer removes it |
| Scenarios.DuplicateCallbackIsRefused | server.js:102-126 | A second callback for the same id gets 404 and changes nothing |
| Scenarios.TimerAfterCallbackIsNoOp | server.js:42-47 | After a successful callback, the id's timer is still armed, and firing it changes neither registry nor outcomes |
| Scenarios.BlankErrorFallsBack | server.js:113-114 | A callback whose error converts to empty text rejects the request, and the caller is answered with "Failed to process text" |
| Scenarios.UnconvertibleIdIsRefused | server.js:104-105 | A callback naming an id object with its own `toString` key gets 500 rather than 404, because the warning before the 404 cannot convert the id to text; nothing changes |
| Scenarios.UnconvertibleErrorLeavesEntry | server.js:113-114 | A callback whose error object carries its own `toString` key throws: the callback gets 500 and the request stays registered and unsettled |

## Left out

- Express wiring, CORS, JSON body parsing, `dotenv`, `app.listen` and the module export
  (server.js:1-12, 166-171) are left out. Requests reach the model as already-parsed
  `JsValue` bodies. Duplicate JSON keys and the Express version's default for an unparsed
  body are not modelled.
- The outbound `axios.post` (server.js:58-62) is a network call. The model replaces it with
  the `DispatchSettled` event, which carries `DispatchOk` or `DispatchFail(message)`. The
  webhook URL, headers and the dispatched payload's timestamp are left out.
- `uuidv4()` (server.js:35) is randomness. The model replaces it with the `Fresh`
  precondition on the submitted id.
- `setTimeout`, the 300000 ms duration and the ISO timestamps (server.js:42-47, 54, 148)
  depend on real time. The model replaces the timer with a `TimerFires` event that the
  environment may schedule at any point after the submission. The health body's timestamp
  is not modelled.
- Promise mechanics are replaced by the explicit outcome slot and `CallerReply`. This
  includes the unhandled rejection raised when a promise is rejected after a failed outbound
  call, or before the handler awaits it. Recent Node versions terminate the process on that
  rejection, and the model does not represent process termination.
- `console` output is left out. Only one log call affects behaviour: the warning at server.js:105
  converts `db_id` to text and can throw. The model answers that case with 500 from
  `Callback`.
- The wording of TypeError messages belongs to the JavaScript engine. The model writes such
  an answer as `EngineTypeError`.
- JSON numbers are carried as the text `String(n)` gives for them. The model does no
  floating-point parsing or formatting.
- JsValues.Prop: models lookup only for the plain field names the handlers read. These are
  never array indices or built-in properties such as `length`.
- JsValues.ToStr: treats every object without its own `toString` key as "[object Object]".
  Objects of that kind from JSON have no other way to change their conversion.
