/**
 * The `POST /mcp` handler: classify the envelope (notification, malformed,
 * request), dispatch a request on its exact method name, validate and run
 * `tools/call`, and map every outcome, including the archival service's,
 * onto an HTTP status and a JSON-RPC response.
 */
module Server {
  import opened Wrappers
  import opened JsValues
  import opened Render
  import opened Protocol
  import opened Registry

  /**
   * How the outbound upload of the rendered conversation ended: the call
   * itself threw (network failure, bad base address), or the service
   * replied with a status, a status text, its body as text, and the outcome
   * of parsing that body as JSON.
   */
  datatype RemoteOutcome =
    | Threw(message: string)
    | Replied(status: nat, statusText: string, text: string, json: Result<JVal, string>)

  /** The three shapes an inbound envelope can have. */
  datatype Class = Notification | Malformed | Request

  /**
   * A notification has no id and a truthy method; anything else with a
   * falsy `jsonrpc`, a falsy method or no id is malformed. `jsonrpc` is only
   * tested for truthiness, not compared with "2.0".
   */
  function Classify(env: Envelope): (c: Class)
    ensures c == Notification <==> env.id.None? && OptTruthy(env.methodName)
    ensures c == Request <==> env.id.Some? && OptTruthy(env.methodName) && OptTruthy(env.jsonrpc)
  {
    if env.id.None? && OptTruthy(env.methodName) then Notification
    else if !OptTruthy(env.jsonrpc) || !OptTruthy(env.methodName) || env.id.None? then Malformed
    else Request
  }

  /** `params || {}`, `args || {}`: a falsy or absent value reads as an empty object. */
  function ObjectOrEmpty(v: Option<JVal>): JVal {
    OrElse(v, JObj(map[]))
  }

  /** The `name` member of `params`, as `tools/call` reads it. */
  function ToolNameOf(params: Option<JVal>): Option<JVal> {
    Get(ObjectOrEmpty(params), "name")
  }

  /** The `arguments.messages` member of `params`, as `tools/call` reads it. */
  function MessagesOf(params: Option<JVal>): Option<JVal> {
    Get(ObjectOrEmpty(Get(ObjectOrEmpty(params), "arguments")), "messages")
  }

  const InvalidArgumentsMessage: string := "Invalid arguments for saveConversation"

  /** Where `tools/call` stands before the upload: it has answered, or it uploads this document. */
  datatype CallStep = Reply(outcome: Result<Response, string>) | Send(html: string)

  /**
   * The part of `tools/call` before the upload. A `Failure` outcome is an
   * exception that escapes to the handler's outer catch; a failing string
   * conversion while rendering is caught by the tool's own catch (-32000).
   */
  function PrepareCall(id: JVal, params: Option<JVal>): (step: CallStep)
    ensures step.Reply? && step.outcome.Success? ==>
      var r := step.outcome.value;
      r.Json? && r.id == id && r.payload.Error?
      && (r.payload.code == MethodNotFound || r.payload.code == InvalidParams
          || r.payload.code == ServerError)
  {
    var name := ToolNameOf(params);
    if name != Some(JStr(ToolName)) then
      match TemplateString(name)
      case Failure(e) => Reply(Failure(e))
      case Success(s) => Reply(Success(Json(400, id, Error(MethodNotFound, "Unknown tool: " + s))))
    else
      var messages := MessagesOf(params);
      if !(messages.Some? && messages.value.JArr?) then
        Reply(Success(Json(400, id, Error(InvalidParams, InvalidArgumentsMessage))))
      else
        match ToMessages(messages.value.items)
        case Failure(e) => Reply(Success(Json(500, id, Error(ServerError, e))))
        case Success(ms) => Send(RenderHtml(ms))
  }

  /** The message of the error thrown for a non-2xx reply. */
  function RemoteErrorMessage(status: nat, statusText: string, text: string): string {
    "Remote API error: " + NatToString(status) + " " + statusText + " - " + text
  }

  const SavedPrefix: string := "\U{2705} Conversation saved to AIArchives!\n\U{1F517} "

  /** The success result: one text item announcing the URL, and the service's reply unchanged. */
  function SavedResult(url: string, data: JVal): JVal {
    JObj(map[
      "content" := JArr([JObj(map["type" := JStr("text"), "text" := JStr(SavedPrefix + url)])]),
      "remoteResponse" := data])
  }

  /** `response.ok`: a status in the range 200-299. */
  predicate IsOk(status: nat) {
    200 <= status <= 299
  }

  /**
   * The part of `tools/call` after the upload: a reply outside 200-299, a
   * thrown call, an unparsable body or a failing `${data.url}` become a
   * 500 with code -32000; otherwise a 200 with the saved result.
   */
  function RemoteReply(id: JVal, remote: RemoteOutcome): (r: Response)
    ensures r.Json? && r.id == id
    ensures r.payload.Result? <==> r.status == 200
    ensures r.payload.Error? ==> r.status == 500 && r.payload.code == ServerError
  {
    match remote
    case Threw(message) => Json(500, id, Error(ServerError, message))
    case Replied(status, statusText, text, json) =>
      if !IsOk(status) then Json(500, id, Error(ServerError, RemoteErrorMessage(status, statusText, text)))
      else
        match json
        case Failure(e) => Json(500, id, Error(ServerError, e))
        case Success(data) =>
          match Member(data, "url")
          case Failure(e) => Json(500, id, Error(ServerError, e))
          case Success(url) =>
            match TemplateString(url)
            case Failure(e) => Json(500, id, Error(ServerError, e))
            case Success(u) => Json(200, id, Result(SavedResult(u, data)))
  }

  /** The `tools/call` case: a `Failure` is an exception for the outer catch. */
  function CallTool(id: JVal, params: Option<JVal>, remote: RemoteOutcome): (res: Result<Response, string>)
    ensures res.Success? ==> res.value.Json? && res.value.id == id
    ensures res.Failure? ==> res.error == NoPrimitiveMessage && ToolNameOf(params) != Some(JStr(ToolName))
  {
    match PrepareCall(id, params)
    case Reply(outcome) => outcome
    case Send(_) => Success(RemoteReply(id, remote))
  }

  /** The `switch` on the method `name`, by strict equality with the three method names. */
  function Dispatch(name: JVal, id: JVal, params: Option<JVal>, remote: RemoteOutcome): (res: Result<Response, string>)
    ensures res.Success? ==> res.value.Json? && res.value.id == id
    ensures res.Failure? ==> res.error == NoPrimitiveMessage
    ensures res.Success? && res.value.payload.Error? ==> res.value.payload.code != InvalidRequest
  {
    if name == JStr("initialize") then Success(Json(200, id, Result(InitializeResult())))
    else if name == JStr("tools/list") then Success(Json(200, id, Result(ToolsListResult())))
    else if name == JStr("tools/call") then CallTool(id, params, remote)
    else
      match TemplateString(Some(name))
      case Failure(e) => Failure(e)
      case Success(s) => Success(Json(400, id, Error(MethodNotFound, "Unknown method: " + s)))
  }

  /** The error every exception reaching the outer catch becomes; its id is `id || null`. */
  function InternalFailure(env: Envelope, message: string): Response {
    Json(500, OrElse(env.id, JNull), Error(InternalError, message))
  }

  /**
   * The whole handler. A notification gets an empty 204 whatever its method;
   * every other envelope gets a JSON body whose status is 200 exactly when it
   * carries a result, and whose error code is one of the five the protocol
   * layer uses.
   */
  function Handle(env: Envelope, remote: RemoteOutcome): (r: Response)
    ensures r.NoContent? <==> Classify(env) == Notification
    ensures r.Json? ==> (r.status == 200 <==> r.payload.Result?)
    ensures r.Json? && r.payload.Error? ==>
      (r.status == 400 || r.status == 500)
      && (r.payload.code == InvalidRequest || r.payload.code == MethodNotFound
          || r.payload.code == InvalidParams || r.payload.code == InternalError
          || r.payload.code == ServerError)
    ensures r.Json? && r.payload.Error? ==>
      (r.status == 400 <==> r.payload.code in {InvalidRequest, MethodNotFound, InvalidParams})
    ensures r.Json? && r.payload.Error? && r.payload.code == InvalidRequest <==> Classify(env) == Malformed
  {
    match Classify(env)
    case Notification => NoContent
    case Malformed => Json(400, OrElse(env.id, JNull), Error(InvalidRequest, "Invalid Request"))
    case Request =>
      match Dispatch(env.methodName.value, env.id.value, env.params, remote)
      case Failure(e) => InternalFailure(env, e)
      case Success(r) => r
  }

  /**
   * The document the handler uploads to the archival service, or `None`
   * when it answers without calling the service.
   */
  function Upload(env: Envelope): (html: Option<string>)
    ensures html.Some? ==> Classify(env) == Request && env.methodName == Some(JStr("tools/call"))
  {
    if Classify(env) == Request && env.methodName.value == JStr("tools/call") then
      match PrepareCall(env.id.value, env.params)
      case Send(html) => Some(html)
      case Reply(_) => None
    else None
  }

  /**
   * The handler as written, including the notification log line, whose
   * `${method}` throws for an object method with its own `toString` key and
   * so sends the notification to the outer catch.
   */
  function HandleAsWritten(env: Envelope, remote: RemoteOutcome): (r: Response)
    ensures Classify(env) != Notification ==> r == Handle(env, remote)
    ensures r.NoContent? ==> Classify(env) == Notification
  {
    if Classify(env) == Notification then
      match TemplateString(env.methodName)
      case Failure(e) => InternalFailure(env, e)
      case Success(_) => NoContent
    else Handle(env, remote)
  }
}
