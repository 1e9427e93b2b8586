/**
 * The JSON-RPC 2.0 envelopes the bridge receives and sends: the request
 * object (section 4 of the JSON-RPC 2.0 Specification), the response object
 * (section 5) and the error codes it uses (section 5.1, plus -32000 from the
 * range reserved for implementation-defined server errors).
 */
module Protocol {
  import opened Wrappers
  import opened JsValues

  /** The four members the handler destructures from the request body (`method` is `methodName` here); absent is `undefined`. */
  datatype Envelope = Envelope(
    jsonrpc: Option<JVal>,
    methodName: Option<JVal>,
    id: Option<JVal>,
    params: Option<JVal>)

  const InvalidRequest: int := -32600
  const MethodNotFound: int := -32601
  const InvalidParams: int := -32602
  const InternalError: int := -32603
  const ServerError: int := -32000

  /** Exactly one of `result` and `error`, by construction. */
  datatype Payload = Result(value: JVal) | Error(code: int, message: string)

  /**
   * What the handler sends: an empty 204 reply, or an HTTP status with a
   * JSON body built from an id and a payload.
   */
  datatype Response =
    | NoContent
    | Json(status: nat, id: JVal, payload: Payload)

  /** The JSON body `{jsonrpc: "2.0", id, result}` or `{jsonrpc: "2.0", id, error: {code, message}}`. */
  function Body(id: JVal, p: Payload): (v: JVal)
    ensures v.JObj? && "jsonrpc" in v.fields && v.fields["jsonrpc"] == JStr("2.0")
    ensures ("result" in v.fields) != ("error" in v.fields)
    ensures ParseBody(v) == Some((id, p))
  {
    match p
    case Result(value) =>
      JObj(map["jsonrpc" := JStr("2.0"), "id" := id, "result" := value])
    case Error(code, message) =>
      JObj(map["jsonrpc" := JStr("2.0"), "id" := id,
               "error" := JObj(map["code" := JNum(code), "message" := JStr(message)])])
  }

  /**
   * Reads a response body as a client would: it must carry `jsonrpc: "2.0"`,
   * an `id`, and exactly one of `result` and a well-formed `error` object.
   */
  function ParseBody(v: JVal): Option<(JVal, Payload)> {
    if !v.JObj? then None
    else
      var f := v.fields;
      if !("jsonrpc" in f && f["jsonrpc"] == JStr("2.0") && "id" in f) then None
      else if "result" in f && "error" !in f then Some((f["id"], Result(f["result"])))
      else if "error" in f && "result" !in f then
        var e := f["error"];
        if e.JObj? && "code" in e.fields && e.fields["code"].JNum?
           && "message" in e.fields && e.fields["message"].JStr?
        then Some((f["id"], Error(e.fields["code"].n, e.fields["message"].s)))
        else None
      else None
  }

  /** The body sent with a response; a 204 reply has none. */
  function WireBody(r: Response): (b: Option<JVal>)
    ensures b.None? <==> r.NoContent?
    ensures r.Json? ==> ParseBody(b.value) == Some((r.id, r.payload))
  {
    match r
    case NoContent => None
    case Json(_, id, p) => Some(Body(id, p))
  }
}
