/** `RoutePlannerService::optimizeAsync` and `getJobStatus`: how the outcome of the call to the
    routing service becomes the array handed back to the caller. The HTTP call itself is an
    input: it either threw or produced a response. */
module PlannerClient {

  /** A decoded JSON value. */
  datatype Json =
    | JNull
    | JBool(b: bool)
    | JInt(i: int)
    | JString(s: string)
    | JArray(items: seq<Json>)
    | JObject(fields: map<string, Json>)
  {
    /** Decoded into a PHP array: a JSON object or list. */
    predicate IsArray() {
      JObject? || JArray?
    }
  }

  /** The outcome of the HTTP call; `json` is `$resp->json()`, the decoded body, which is
      `JNull` when the body is empty or not JSON. */
  datatype HttpOutcome =
    | Threw(message: string)
    | Responded(status: int, body: string, json: Json)
  {
    /** `successful()`: a 2xx status. */
    predicate Successful() {
      Responded? && 200 <= status < 300
    }
  }

  const MissingJobId := "OR-Tools response missing job_id"
  const RequestFailed := "OR-Tools request failed"

  /** `isset($json[key])`: the body is a JSON object with that key, and its value is not
      null; a list, a scalar or null has no string key set. */
  predicate IsSet(json: Json, key: string)
  {
    json.JObject? && key in json.fields && json.fields[key] != JNull
  }

  /** `optimizeAsync($payload)` given the outcome of posting the payload. */
  function OptimizeAsync(call: HttpOutcome): (reply: map<string, Json>)
    ensures "job_id" in reply
    ensures reply["job_id"] != JNull <==> call.Successful() && IsSet(call.json, "job_id")
    ensures reply["job_id"] != JNull ==> reply == map["job_id" := call.json.fields["job_id"]]
    ensures reply["job_id"] == JNull ==> "error" in reply && reply["error"].JString?
  {
    match call
    case Threw(message) => map["job_id" := JNull, "error" := JString(message)]
    case Responded(_, _, json) =>
      if call.Successful() then
        if IsSet(json, "job_id") then map["job_id" := json.fields["job_id"]]
        else map["job_id" := JNull, "error" := JString(MissingJobId)]
      else map["job_id" := JNull, "error" := JString(RequestFailed)]
  }

  /** The error of a rejected submission names its cause: the exception's message when the
      call threw, the request failure for a non-2xx status, and the missing id for a 2xx
      response without one, including a body that is not a JSON object. */
  lemma OptimizeErrors(call: HttpOutcome)
    ensures var reply := OptimizeAsync(call);
      && (call.Threw? ==> reply["error"] == JString(call.message))
      && (call.Responded? && !call.Successful() ==> reply["error"] == JString(RequestFailed))
      && (call.Successful() && !IsSet(call.json, "job_id") ==> reply["error"] == JString(MissingJobId))
      && (call.Successful() && !call.json.JObject? ==> reply["job_id"] == JNull)
      && MissingJobId != RequestFailed
  {
  }

  /** The routing service's answer to a submission (`job_id`, `status`, `strategy`) yields
      exactly its job id. */
  lemma AcceptedSubmission(status: int, body: string, jobId: string, strategy: string)
    requires 200 <= status < 300
    ensures OptimizeAsync(Responded(status, body,
              JObject(map["job_id" := JString(jobId), "status" := JString("running"), "strategy" := JString(strategy)])))
            == map["job_id" := JString(jobId)]
  {
  }

  /** The error reply of `getJobStatus`. */
  function StatusError(message: string): Json
  {
    JObject(map["status" := JString("error"), "message" := JString(message)])
  }

  /** `getJobStatus($jobId)` given the outcome of the status request. `typeError` is the
      message of the error PHP raises inside the `try` when a 2xx body does not decode to an
      array, which the method's `array` return type refuses. */
  function GetJobStatus(call: HttpOutcome, typeError: string): (reply: Json)
    ensures reply.IsArray()
    ensures call.Successful() && call.json.IsArray() ==> reply == call.json
    ensures !(call.Successful() && call.json.IsArray()) ==>
      reply.JObject? && reply.fields.Keys == {"status", "message"} && reply.fields["status"] == JString("error")
  {
    match call
    case Threw(message) => StatusError(message)
    case Responded(_, body, json) =>
      if call.Successful() then
        if json.IsArray() then json else StatusError(typeError)
      else StatusError(body)
  }

  /** A failed status request carries the response body, the exception's message, or, for a
      2xx body that is not an array, the return-type error's message, as `message`. */
  lemma StatusErrorMessage(call: HttpOutcome, typeError: string)
    requires !(call.Successful() && call.json.IsArray())
    ensures GetJobStatus(call, typeError).fields["message"] ==
      JString(if call.Threw? then call.message else if call.Successful() then typeError else call.body)
  {
  }
}
