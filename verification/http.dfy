/**
 The JSON responses the handlers of server.js send, with the fixed texts they use.
 Timestamps in the bodies are left out.
 */
module Http {
  import opened JsValues

  /** What a resolved request hands back to its caller: the four fields read from the
      callback body, each `undefined` when the body lacks it. */
  datatype ResultPayload = ResultPayload(
    sentiment: JsValue,
    explanation: JsValue,
    confidence: JsValue,
    finalResult: JsValue)

  /** The `error` text of a failure body; a TypeError raised by the JavaScript engine carries
      a message whose wording belongs to the engine and is not modelled. */
  datatype ErrorText = Text(message: string) | EngineTypeError

  datatype Body =
    | Failure(error: ErrorText)                     // { success: false, error }
    | Data(value: ResultPayload)                    // { success: true, data }
    | Acknowledged                                  // { success: true, message: "Callback processed successfully" }
    | HealthReport(pendingRequests: nat)            // { status: "ok", timestamp, pendingRequests }
    | StatusReport(requestId: string, status: string)

  datatype HttpResponse = HttpResponse(code: nat, body: Body)

  const TextRequired := "Text input is required"
  const IdMissing := "Request ID is missing in callback"
  const NoMatch := "No matching pending request found"
  const TimeoutMessage := "Request timeout"
  const ProcessFallback := "Failed to process text"
  const PendingStatus := "pending"
  const SettledStatus := "completed_or_not_found"

  /** The 500 answer of the text-processing route: `error.message || 'Failed to process text'`. */
  function ProcessFailure(message: string): (r: HttpResponse)
    ensures r.code == 500 && r.body.Failure? && r.body.error.Text?
    ensures r.body.error.message != ""
    ensures message != "" ==> r.body.error.message == message
    ensures message == "" ==> r.body.error == Text(ProcessFallback)
  {
    HttpResponse(500, Failure(Text(if message == "" then ProcessFallback else message)))
  }

  /** The 500 answer of a handler whose body threw a TypeError. */
  const EngineFailure := HttpResponse(500, Failure(EngineTypeError))
}
