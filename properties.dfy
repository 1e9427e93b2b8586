/**
 * What the handler promises its clients, stated over `Handle` for every
 * envelope and every outcome of the archival call.
 */
module ServerProperties {
  import opened Wrappers
  import opened JsValues
  import opened Render
  import opened Protocol
  import opened Registry
  import opened Server

  /** A copy of `env` with a different `jsonrpc` member. */
  function WithJsonrpc(env: Envelope, v: JVal): Envelope {
    env.(jsonrpc := Some(v))
  }

  /**
   * A notification (no id, truthy method) gets 204 with no body whatever the
   * method names and whether or not `jsonrpc` is present: the notification
   * test runs before the validity test.
   */
  lemma NotificationIsNoContent(env: Envelope, remote: RemoteOutcome)
    requires env.id.None? && OptTruthy(env.methodName)
    ensures Handle(env, remote) == NoContent
    ensures Upload(env).None?
  {
  }

  /**
   * An envelope that is not a notification and has a falsy `jsonrpc`, a
   * falsy method or no id gets 400 with -32600 "Invalid Request"; its id is
   * the request id when that is truthy and `null` otherwise, so the falsy
   * ids 0, "" and false are replaced by `null`.
   */
  lemma MalformedIsInvalidRequest(env: Envelope, remote: RemoteOutcome)
    requires !(env.id.None? && OptTruthy(env.methodName))
    requires !OptTruthy(env.jsonrpc) || !OptTruthy(env.methodName) || env.id.None?
    ensures Handle(env, remote).Json?
    ensures Handle(env, remote).status == 400
    ensures Handle(env, remote).payload == Error(InvalidRequest, "Invalid Request")
    ensures OptTruthy(env.id) ==> Handle(env, remote).id == env.id.value
    ensures !OptTruthy(env.id) ==> Handle(env, remote).id == JNull
  {
  }

  /** `jsonrpc` is only tested for truthiness: any truthy value is handled like "2.0". */
  lemma JsonrpcOnlyTruthiness(env: Envelope, v: JVal, remote: RemoteOutcome)
    requires Truthy(v)
    ensures Handle(WithJsonrpc(env, v), remote) == Handle(WithJsonrpc(env, JStr("2.0")), remote)
  {
  }

  /**
   * The only exceptions that reach the outer catch come from converting a
   * non-string method or tool name to a string; they give 500 with -32603.
   */
  lemma InternalErrorOnlyFromConversion(env: Envelope, remote: RemoteOutcome)
    requires Handle(env, remote).Json? && Handle(env, remote).payload.Error?
    requires Handle(env, remote).payload.code == InternalError
    ensures Classify(env) == Request
    ensures Handle(env, remote) == InternalFailure(env, NoPrimitiveMessage)
    ensures HasShadowedToString(env.methodName.value)
      || (env.methodName.value == JStr("tools/call")
          && ToolNameOf(env.params).Some? && HasShadowedToString(ToolNameOf(env.params).value))
  {
    var m := env.methodName.value;
    if m == JStr("tools/call") {
      var name := ToolNameOf(env.params);
      if name.Some? {
        ConversionFailsOnlyOnObjects(name.value);
      }
    } else {
      ConversionFailsOnlyOnObjects(m);
    }
  }

  /** A request whose method cannot be converted to text gets the outer catch's -32603. */
  lemma UnprintableMethodIsInternalError(env: Envelope, remote: RemoteOutcome)
    requires Classify(env) == Request && HasShadowedToString(env.methodName.value)
    ensures Handle(env, remote) == InternalFailure(env, NoPrimitiveMessage)
  {
    ConversionFailsOnlyOnObjects(env.methodName.value);
  }

  /** A `tools/call` whose tool name cannot be converted to text gets the outer catch's -32603. */
  lemma UnprintableToolNameIsInternalError(env: Envelope, remote: RemoteOutcome)
    requires IsToolCall(env)
    requires ToolNameOf(env.params).Some? && HasShadowedToString(ToolNameOf(env.params).value)
    ensures Handle(env, remote) == InternalFailure(env, NoPrimitiveMessage)
  {
    ConversionFailsOnlyOnObjects(ToolNameOf(env.params).value);
  }

  /**
   * Every response to a request echoes the request's id unchanged, except
   * the -32603 internal error, which sends `id || null`.
   */
  lemma RequestEchoesId(env: Envelope, remote: RemoteOutcome)
    requires Classify(env) == Request
    ensures Handle(env, remote).Json?
    ensures Handle(env, remote).id == env.id.value
      || Handle(env, remote) == InternalFailure(env, NoPrimitiveMessage)
  {
    var r := Handle(env, remote);
    if r.payload.Error? && r.payload.code == InternalError {
      InternalErrorOnlyFromConversion(env, remote);
    }
  }

  /** A request whose method and tool name (if any) are strings always echoes its id exactly. */
  lemma StringNamesEchoId(env: Envelope, remote: RemoteOutcome)
    requires Classify(env) == Request && env.methodName.value.JStr?
    requires ToolNameOf(env.params).None? || ToolNameOf(env.params).value.JStr?
    ensures Handle(env, remote).Json? && Handle(env, remote).id == env.id.value
  {
    var r := Handle(env, remote);
    if r.payload.Error? && r.payload.code == InternalError {
      InternalErrorOnlyFromConversion(env, remote);
      assert false;
    }
  }

  /**
   * Every JSON reply carries `jsonrpc: "2.0"` and exactly one of `result`
   * and `error`, and a client reading it recovers the id and the payload.
   */
  lemma ExactlyOneOfResultOrError(env: Envelope, remote: RemoteOutcome)
    requires Handle(env, remote).Json?
    ensures WireBody(Handle(env, remote)).Some?
    ensures var f := WireBody(Handle(env, remote)).value.fields;
      "jsonrpc" in f && f["jsonrpc"] == JStr("2.0") && (("result" in f) != ("error" in f))
    ensures ParseBody(WireBody(Handle(env, remote)).value)
      == Some((Handle(env, remote).id, Handle(env, remote).payload))
  {
  }

  /** A method other than the three names gets 400 with -32601 "Unknown method: " and the method. */
  lemma UnknownMethod(env: Envelope, remote: RemoteOutcome, s: string)
    requires Classify(env) == Request
    requires env.methodName.value !in {JStr("initialize"), JStr("tools/list"), JStr("tools/call")}
    requires ValueString(env.methodName.value) == Success(s)
    ensures Handle(env, remote) == Json(400, env.id.value, Error(MethodNotFound, "Unknown method: " + s))
  {
  }

  /** For a string method the message names it verbatim. */
  lemma UnknownStringMethod(env: Envelope, remote: RemoteOutcome, m: string)
    requires Classify(env) == Request && env.methodName == Some(JStr(m))
    requires m != "initialize" && m != "tools/list" && m != "tools/call"
    ensures Handle(env, remote) == Json(400, env.id.value, Error(MethodNotFound, "Unknown method: " + m))
  {
    UnknownMethod(env, remote, m);
  }

  /**
   * `initialize` always answers 200 with the same static result, whatever the
   * params and the remote service: it is idempotent.
   */
  lemma InitializeIsStatic(env: Envelope, remote: RemoteOutcome)
    requires Classify(env) == Request && env.methodName == Some(JStr("initialize"))
    ensures Handle(env, remote) == Json(200, env.id.value, Result(InitializeResult()))
    ensures Upload(env).None?
  {
  }

  /** `tools/list` always answers 200 with the registry: exactly the tool `saveConversation`. */
  lemma ToolsListIsStatic(env: Envelope, remote: RemoteOutcome)
    requires Classify(env) == Request && env.methodName == Some(JStr("tools/list"))
    ensures Handle(env, remote) == Json(200, env.id.value, Result(ToolsListResult()))
    ensures ListedNames(Handle(env, remote).payload.value) == {ToolName}
    ensures Get(Handle(env, remote).payload.value, "tools") == Some(JArr([SaveConversationTool()]))
    ensures Get(InputSchema(), "required") == Some(JArr([JStr("messages")]))
  {
    ListedToolNames();
  }

  /** A `tools/call` request. */
  predicate IsToolCall(env: Envelope) {
    Classify(env) == Request && env.methodName == Some(JStr("tools/call"))
  }

  /**
   * A tool name other than "saveConversation", including a missing `params`,
   * gets 400 with -32601 "Unknown tool: " and the name (`undefined` when absent).
   */
  lemma UnknownTool(env: Envelope, remote: RemoteOutcome, s: string)
    requires IsToolCall(env)
    requires ToolNameOf(env.params) != Some(JStr(ToolName))
    requires TemplateString(ToolNameOf(env.params)) == Success(s)
    ensures Handle(env, remote) == Json(400, env.id.value, Error(MethodNotFound, "Unknown tool: " + s))
    ensures Upload(env).None?
  {
  }

  lemma MissingParamsIsUnknownTool(env: Envelope, remote: RemoteOutcome)
    requires IsToolCall(env) && env.params.None?
    ensures Handle(env, remote) == Json(400, env.id.value, Error(MethodNotFound, "Unknown tool: undefined"))
  {
    UnknownTool(env, remote, "undefined");
  }

  /**
   * `tools/call` refuses a string tool name with -32601 exactly when
   * `tools/list` does not list it: the one name it accepts is the one name
   * the list describes.
   */
  lemma CallableIffListed(env: Envelope, remote: RemoteOutcome, n: string)
    requires IsToolCall(env) && ToolNameOf(env.params) == Some(JStr(n))
    ensures n in ListedNames(ToolsListResult()) <==>
      !(Handle(env, remote).payload.Error? && Handle(env, remote).payload.code == MethodNotFound)
    ensures n !in ListedNames(ToolsListResult()) ==>
      Handle(env, remote) == Json(400, env.id.value, Error(MethodNotFound, "Unknown tool: " + n))
  {
    ListedToolNames();
    if n == ToolName {
      if PrepareCall(env.id.value, env.params).Send? {
        assert Upload(env).Some?;
        HandleAfterUpload(env, remote);
      } else {
        assert CallTool(env.id.value, env.params, remote).Success?;
        assert Handle(env, remote) == CallTool(env.id.value, env.params, remote).value;
      }
    } else {
      UnknownTool(env, remote, n);
    }
  }

  /** For the known tool, a missing or non-array `arguments.messages` gets 400 with -32602. */
  lemma BadArguments(env: Envelope, remote: RemoteOutcome)
    requires IsToolCall(env) && ToolNameOf(env.params) == Some(JStr(ToolName))
    requires MessagesOf(env.params).None? || !MessagesOf(env.params).value.JArr?
    ensures Handle(env, remote) == Json(400, env.id.value, Error(InvalidParams, InvalidArgumentsMessage))
    ensures Upload(env).None?
  {
  }

  /** An empty message list is accepted: an empty document is uploaded. */
  lemma EmptyMessagesAccepted(env: Envelope, remote: RemoteOutcome)
    requires IsToolCall(env) && ToolNameOf(env.params) == Some(JStr(ToolName))
    requires MessagesOf(env.params) == Some(JArr([]))
    ensures Upload(env) == Some("")
    ensures Handle(env, remote) == RemoteReply(env.id.value, remote)
  {
  }

  /** A message as a client writes it: an object with string `role` and `content`. */
  function MessageValue(m: Message): JVal {
    JObj(map["role" := JStr(m.role), "content" := JStr(m.content)])
  }

  /**
   * Whenever the `messages` array converts, the upload is exactly the
   * rendering of the converted messages, in order, and the reply is then
   * decided by the archival service alone.
   */
  lemma UploadRendersMessages(env: Envelope, remote: RemoteOutcome, items: seq<JVal>, ms: seq<Message>)
    requires IsToolCall(env) && ToolNameOf(env.params) == Some(JStr(ToolName))
    requires MessagesOf(env.params) == Some(JArr(items)) && ToMessages(items) == Success(ms)
    ensures Upload(env) == Some(RenderHtml(ms))
    ensures Handle(env, remote) == RemoteReply(env.id.value, remote)
  {
    assert PrepareCall(env.id.value, env.params) == Send(RenderHtml(ms));
    HandleAfterUpload(env, remote);
  }

  /** In particular, the array a client sends for some messages uploads their rendering. */
  lemma UploadRendersMessageValues(env: Envelope, remote: RemoteOutcome, ms: seq<Message>)
    requires IsToolCall(env) && ToolNameOf(env.params) == Some(JStr(ToolName))
    requires MessagesOf(env.params) == Some(JArr(MessageValues(ms)))
    ensures Upload(env) == Some(RenderHtml(ms))
    ensures Handle(env, remote) == RemoteReply(env.id.value, remote)
  {
    ConvertMessageValues(ms);
    UploadRendersMessages(env, remote, MessageValues(ms), ms);
  }

  /** The array a client sends for a list of messages. */
  function MessageValues(ms: seq<Message>): (vs: seq<JVal>)
    ensures |vs| == |ms| && forall i :: 0 <= i < |ms| ==> vs[i] == MessageValue(ms[i])
  {
    seq(|ms|, i requires 0 <= i < |ms| => MessageValue(ms[i]))
  }

  /** Converting the values a client sends for some messages gives those messages back. */
  lemma ConvertMessageValues(ms: seq<Message>)
    ensures ToMessages(MessageValues(ms)) == Success(ms)
  {
    var items := MessageValues(ms);
    forall i | 0 <= i < |ms| ensures ToMessage(items[i]) == Success(ms[i]) {
      assert items[i] == MessageValue(ms[i]);
    }
    assert ToMessages(items).value == ms;
  }

  /**
   * Any element that fails to convert while rendering is caught by the
   * tool's own catch: 500 with -32000 carrying the exception's message, the
   * id echoed, and nothing uploaded.
   */
  lemma RenderFailureIsServerError(env: Envelope, remote: RemoteOutcome, items: seq<JVal>)
    requires IsToolCall(env) && ToolNameOf(env.params) == Some(JStr(ToolName))
    requires MessagesOf(env.params) == Some(JArr(items)) && ToMessages(items).Failure?
    ensures Upload(env).None?
    ensures Handle(env, remote) == Json(500, env.id.value, Error(ServerError, ToMessages(items).error))
  {
    var r := Json(500, env.id.value, Error(ServerError, ToMessages(items).error));
    assert PrepareCall(env.id.value, env.params) == Reply(Success(r));
    assert CallTool(env.id.value, env.params, remote) == Success(r);
    assert Dispatch(env.methodName.value, env.id.value, env.params, remote) == Success(r);
  }

  /**
   * A message array holding `null` is rejected while rendering, inside the
   * tool's own catch: 500 with -32000, and nothing is uploaded.
   */
  lemma NullMessageIsServerError(env: Envelope, remote: RemoteOutcome, items: seq<JVal>)
    requires IsToolCall(env) && ToolNameOf(env.params) == Some(JStr(ToolName))
    requires MessagesOf(env.params) == Some(JArr(items))
    requires JNull in items
    ensures Upload(env).None?
    ensures Handle(env, remote).Json? && Handle(env, remote).status == 500
    ensures Handle(env, remote).id == env.id.value
    ensures Handle(env, remote).payload.Error? && Handle(env, remote).payload.code == ServerError
  {
    var k :| 0 <= k < |items| && items[k] == JNull;
    assert ToMessage(items[k]).Failure?;
    RenderFailureIsServerError(env, remote, items);
  }

  /** Without an upload the reply does not depend on the archival service at all. */
  lemma RemoteIgnoredWithoutUpload(env: Envelope, r1: RemoteOutcome, r2: RemoteOutcome)
    requires Upload(env).None?
    ensures Handle(env, r1) == Handle(env, r2)
  {
  }

  /** After an upload the reply is decided by the archival service's outcome alone. */
  lemma HandleAfterUpload(env: Envelope, remote: RemoteOutcome)
    requires Upload(env).Some?
    ensures Handle(env, remote) == RemoteReply(env.id.value, remote)
  {
    var id := env.id.value;
    assert PrepareCall(id, env.params).Send?;
    assert CallTool(id, env.params, remote) == Success(RemoteReply(id, remote));
    assert Dispatch(env.methodName.value, id, env.params, remote) == Success(RemoteReply(id, remote));
  }

  /**
   * After an upload: a reply outside 200-299 gives 500 with -32000 and a
   * message holding the status, the status text and the body text; a thrown
   * call gives 500 with -32000 and the error's own message.
   */
  lemma RemoteFailures(env: Envelope, remote: RemoteOutcome)
    requires Upload(env).Some?
    ensures remote.Threw? ==>
      Handle(env, remote) == Json(500, env.id.value, Error(ServerError, remote.message))
    ensures remote.Replied? && !IsOk(remote.status) ==>
      Handle(env, remote) == Json(500, env.id.value, Error(ServerError,
        "Remote API error: " + NatToString(remote.status) + " " + remote.statusText + " - " + remote.text))
  {
    HandleAfterUpload(env, remote);
  }

  /** The service's status is readable back from the error message. */
  lemma RemoteStatusInMessage(status: nat, statusText: string, text: string)
    ensures var m := RemoteErrorMessage(status, statusText, text);
      var digits := NatToString(status);
      m[|"Remote API error: "|..|"Remote API error: "| + |digits|] == digits
      && ParseDigits(digits) == status
      && m[|m| - |text|..] == text
  {
    NatToStringRoundTrip(status);
  }

  /**
   * A 2xx reply whose JSON body has a string `url` gives 200 with one text
   * item that ends with that url and a `remoteResponse` equal to the reply.
   */
  lemma RemoteSuccess(env: Envelope, status: nat, statusText: string, text: string,
                      data: JVal, url: string)
    requires Upload(env).Some? && IsOk(status)
    requires data.JObj? && "url" in data.fields && data.fields["url"] == JStr(url)
    ensures var r := Handle(env, Replied(status, statusText, text, Success(data)));
      r.Json? && r.status == 200 && r.id == env.id.value && r.payload.Result?
      && Get(r.payload.value, "remoteResponse") == Some(data)
      && Get(r.payload.value, "content").Some?
      && Get(r.payload.value, "content").value.JArr?
      && |Get(r.payload.value, "content").value.items| == 1
      && Get(Get(r.payload.value, "content").value.items[0], "type") == Some(JStr("text"))
      && Get(Get(r.payload.value, "content").value.items[0], "text") == Some(JStr(SavedPrefix + url))
  {
    HandleAfterUpload(env, Replied(status, statusText, text, Success(data)));
  }

  /**
   * As written, the notification log line converts the method to a string
   * first: a notification whose method is an object with its own `toString`
   * key gets 500 with -32603 and id `null` instead of the 204 every other
   * notification gets.
   */
  lemma NotificationLogThrows()
    ensures var env := Envelope(None, Some(JObj(map["toString" := JNum(1)])), None, None);
      HandleAsWritten(env, Threw("")) == Json(500, JNull, Error(InternalError, NoPrimitiveMessage))
      && Handle(env, Threw("")) == NoContent
  {
    var env := Envelope(None, Some(JObj(map["toString" := JNum(1)])), None, None);
    assert TemplateString(env.methodName) == Failure(NoPrimitiveMessage);
  }

  /** The handler as written and the corrected handler differ on exactly those notifications. */
  lemma AsWrittenDiffersOnlyOnUnprintableNotifications(env: Envelope, remote: RemoteOutcome)
    ensures HandleAsWritten(env, remote) != Handle(env, remote)
      <==> Classify(env) == Notification && HasShadowedToString(env.methodName.value)
  {
    if Classify(env) == Notification {
      ConversionFailsOnlyOnObjects(env.methodName.value);
    }
  }
}
