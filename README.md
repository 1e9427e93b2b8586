# MCP bridge: the `POST /mcp` handler

This project models the one endpoint of the Claude → AIArchives bridge. The endpoint is a
JSON-RPC 2.0 server for the Model Context Protocol. It
classifies an inbound envelope as a notification, a malformed envelope or a request
(sections 4 and 4.1 of the JSON-RPC 2.0 Specification). It dispatches a request on the exact
method name (`initialize`, `tools/list`, `tools/call`). It validates the arguments of its one
tool, `saveConversation`, and renders the conversation to an HTML document. It then maps the
archival service's reply, and every failure, onto an HTTP status and a JSON-RPC response
object (section 5) with the error codes of section 5.1.

The handler is pure decision logic, so it is modelled as the function
`Server.Handle(env, remote)`. The handler's one network call becomes the input `remote`,
which says how the upload ended. `Server.Upload(env)` says which document the handler
uploads, if any.

Modules, one per component:

- `JsValues` (json.dfy) holds JSON values, JavaScript truthiness, property reads, and the
  string conversion a template literal performs. That conversion throws a TypeError for an
  object whose own `toString` key shadows the inherited method.
- `Render` (render.dfy) holds the HTML document (one `<p><strong>role:</strong> content</p>`
  per message, joined with newlines, no escaping) and the conversion of the `messages` array.
- `Protocol` (protocol.dfy) holds envelopes, responses, the wire body and a client-side
  reader for it.
- `Registry` (registry.dfy) holds the static `initialize` and `tools/list` results.
- `Server` (server.dfy) holds classification, dispatch, `tools/call` and the handler.
- `ServerProperties` (properties.dfy) holds what the handler promises, stated for all inputs.

The model follows the code, including where it departs from the JSON-RPC 2.0 Specification:

- `jsonrpc` is tested for truthiness only, never compared with "2.0".
- The id of a -32600 or -32603 reply is `id || null`, so the falsy ids 0, "" and false
  become `null`.
- An unknown tool reuses -32601.
- "Missing" means falsy for `jsonrpc` and `method`, and `undefined` for `id`.
- Converting a non-string method or tool name to text can throw. For `Unknown method:` and
  `Unknown tool:`, that exception reaches the outer catch (500, -32603). The same thing
  inside rendering is caught by the tool's own catch (500, -32000).

## Model

| member | source | states |
|---|---|---|
| `JsValues.FalsyValues` | server.js:30 | the JavaScript `or` at this line keeps the id unless it is one of the falsy JSON values, which are exactly null, false, 0 and "" |
| `JsValues.NatToString` | server.js:122 | the status is written as a non-empty string of decimal digits with no leading zero |
| `JsValues.NatToStringRoundTrip` | server.js:122 | reading the written status back gives the status |
| `JsValues.IntToStringRoundTrip` | server.js:152 | a numeric method is written as an optionally signed decimal numeral that reads back as the same number |
| `JsValues.TemplateString` | server.js:84 | `${x}` of `undefined` is "undefined", of a string is that string, and can fail only with "Cannot convert object to primitive value" |
| `JsValues.ConversionFailsOnlyOnObjects` | server.js:152 | converting a value throws exactly when it is, or an array holds, an object with its own `toString` key |
| `Render.Lines` | server.js:100 | one paragraph per message, in order |
| `Render.RenderHtml` | server.js:99-101 | the document is empty exactly when there are no messages |
| `Render.SplitRenderHtml` | server.js:99-101 | splitting the document at newlines (`Render.SplitLines`, the inverse of the join) gives back exactly the paragraphs in input order, when no role or content holds a newline |
| `Render.NewlineCount` | server.js:101 | n such messages give exactly n - 1 newlines |
| `Render.RenderHtmlAppend` | server.js:99-101 | appending a message appends its paragraph after one newline, so order is preserved |
| `Render.ToMessage` | server.js:100 | a null message throws reading `role` |
| `Render.ToMessageFields` | server.js:100 | a non-null element converts exactly when neither present field is, or holds in an array, an object with its own `toString`, and otherwise fails with "Cannot convert object to primitive value"; each absent field reads as "undefined" and each string field is inserted verbatim, whatever the other field holds |
| `Render.ToMessages` | server.js:99-100 | the map succeeds exactly when every element converts, giving each element's conversion in order; otherwise the first failing element's error |
| `Protocol.Body` | server.js:28-32 | every body carries `jsonrpc: "2.0"` and exactly one of `result` and `error`, and a client reads back the same id and payload |
| `Protocol.WireBody` | server.js:24 | only the 204 reply has no body; every other body reads back as its id and payload |
| `Registry.InputSchema` | server.js:56-72 | the argument schema requires exactly `messages`, typed as an array |
| `Registry.SaveConversationTool` | server.js:53-73 | the descriptor is named "saveConversation" and carries the input schema |
| `Registry.ToolsListResult` | server.js:51-75 | `tools` is an array holding exactly the one descriptor |
| `Registry.InitializeResult` | server.js:40-44 | protocol version "2025-06-18", capabilities `{tools: {}}`, server name and version "1.1.0" |
| `Registry.ListedToolNames` | server.js:52-74 | the list names exactly one tool, "saveConversation" |
| `Server.Classify` | server.js:22-33 | a notification is exactly an envelope with no id and a truthy method; a request is exactly one with an id, a truthy method and a truthy `jsonrpc`; everything else is malformed |
| `Server.PrepareCall` | server.js:78-101 | every answer given before the upload echoes the id and is a -32601, -32602 or -32000 error |
| `Server.RemoteReply` | server.js:114-144 | after the upload the id is echoed, a result comes exactly with status 200, and every error is a 500 with -32000 |
| `Server.CallTool` | server.js:78-146 | a reply from `tools/call` echoes the id; an exception escapes only from converting a tool name other than "saveConversation" |
| `Server.Dispatch` | server.js:35-154 | every dispatched reply echoes the id unchanged and is never -32600; the only exception is the failed conversion of a name |
| `Server.Handle` | server.js:16-163 | 204 exactly for notifications; status 200 exactly with a result; errors are 400 (exactly for -32600, -32601, -32602) or 500 (for -32603, -32000); -32600 exactly for malformed envelopes |
| `Server.Upload` | server.js:99-118 | a document is uploaded only for a `tools/call` request |
| `Server.HandleAsWritten` | server.js:22-25 | the handler with its log line agrees with `Handle` except on notifications, and answers 204 only to notifications |
| `ServerProperties.NotificationIsNoContent` | server.js:22-25 | no id and a truthy method give 204 and no upload, whatever the method and `jsonrpc` |
| `ServerProperties.MalformedIsInvalidRequest` | server.js:27-33 | a non-notification with a falsy `jsonrpc`, a falsy method or no id gives 400, -32600, "Invalid Request", with the id if truthy else null |
| `ServerProperties.JsonrpcOnlyTruthiness` | server.js:27 | any truthy `jsonrpc` is handled exactly like "2.0" |
| `ServerProperties.InternalErrorOnlyFromConversion` | server.js:155-161 | a -32603 reply comes only from a request whose method, or whose tool name, cannot be converted to text |
| `ServerProperties.UnprintableMethodIsInternalError` | server.js:152-161 | a request whose method is, or holds in an array, an object with its own `toString` gets 500, -32603, "Cannot convert object to primitive value" with the id if truthy else null |
| `ServerProperties.UnprintableToolNameIsInternalError` | server.js:79-161 | a `tools/call` whose tool name cannot be converted to text gets the same -32603 reply |
| `ServerProperties.RequestEchoesId` | server.js:39 | every reply to a request echoes the id unchanged, except the -32603 reply, which sends the id if truthy, else null |
| `ServerProperties.StringNamesEchoId` | server.js:130 | with a string method and a string or missing tool name, the id is always echoed unchanged |
| `ServerProperties.ExactlyOneOfResultOrError` | server.js:28-160 | every JSON reply has `jsonrpc: "2.0"` and exactly one of `result` and `error`, and it reads back as its id and payload |
| `ServerProperties.UnknownMethod` | server.js:148-153 | any other method gives 400, -32601, "Unknown method: " followed by the method as text |
| `ServerProperties.UnknownStringMethod` | server.js:152 | for a string method that text is the method itself |
| `ServerProperties.InitializeIsStatic` | server.js:36-45 | `initialize` always gives 200 with the static result, whatever the params and remote, and nothing is uploaded |
| `ServerProperties.ToolsListIsStatic` | server.js:47-76 | `tools/list` always gives 200 with one descriptor, "saveConversation", whose schema requires `messages` |
| `ServerProperties.UnknownTool` | server.js:79-86 | a tool name other than "saveConversation" gives 400, -32601, "Unknown tool: " followed by the name, and nothing is uploaded |
| `ServerProperties.MissingParamsIsUnknownTool` | server.js:79-84 | with no `params` the message is "Unknown tool: undefined" |
| `ServerProperties.CallableIffListed` | server.js:79-86 | `tools/call` answers a string tool name with -32601 exactly when `tools/list` does not list it, and then with 400 and "Unknown tool: " followed by the name |
| `ServerProperties.BadArguments` | server.js:88-95 | a missing or non-array `arguments.messages` gives 400, -32602, and nothing is uploaded |
| `ServerProperties.EmptyMessagesAccepted` | server.js:89 | an empty message array is accepted and uploads the empty document |
| `ServerProperties.UploadRendersMessages` | server.js:99-118 | whenever every element of `messages` converts, exactly the rendering of the converted messages is uploaded, and the reply then depends only on the remote outcome |
| `ServerProperties.UploadRendersMessageValues` | server.js:99-118 | in particular, the objects a client sends for some messages upload exactly the rendering of those messages |
| `ServerProperties.RenderFailureIsServerError` | server.js:97-144 | any element that fails to convert gives 500, -32000 with the conversion's own error message and the id echoed, and nothing is uploaded |
| `ServerProperties.NullMessageIsServerError` | server.js:97-100 | a null message gives 500, -32000, with the id echoed, and nothing is uploaded |
| `ServerProperties.RemoteIgnoredWithoutUpload` | server.js:114 | without an upload the reply does not depend on the remote outcome |
| `ServerProperties.RemoteFailures` | server.js:120-122 | a non-2xx reply gives 500, -32000, "Remote API error: status statusText - body"; a thrown call gives 500, -32000 and its message |
| `ServerProperties.RemoteStatusInMessage` | server.js:122 | the error message holds the status digits, which read back as the status, and ends with the body text |
| `ServerProperties.RemoteSuccess` | server.js:125-137 | a 2xx JSON reply with a string `url` gives 200, one text item ending with the url, and `remoteResponse` equal to the reply |
| `ServerProperties.NotificationLogThrows` | server.js:22-24 | as written, a notification whose method is `{"toString": 1}` gets 500, -32603 and id null; the corrected handler answers 204 |
| `ServerProperties.AsWrittenDiffersOnlyOnUnprintableNotifications` | server.js:23 | the handler as written differs from the corrected one exactly on notifications whose method cannot be converted to text |

## Left out

- Express, cors and body-parser setup, `app.listen` and the `/health` route (server.js:1-14,
  165-176) are left out: this is framework plumbing, and the health reply reads the wall clock.
- Console logging is left out, because it has no effect on the reply. The one exception is the
  log line at server.js:23, which can throw; see Findings.
- The upload itself is left out: FormData, `Buffer.from`, `process.env.BASE_URL` and `fetch`
  (server.js:104-118). `Upload` gives the document that would be sent. The call's result is the
  input `RemoteOutcome`: it threw, or it replied with a status, a status text, a body and the
  outcome of parsing that body as JSON.
- Parsing the remote JSON body (server.js:125) is left out. Its outcome is part of the input,
  and a parse failure's message is whatever that input says.
- Numbers are integers. Fractions, exponent notation, NaN and -0 are not modelled.
- `JsValues.IntToString` matches JavaScript's `String(n)` only for magnitudes up to 2^53. A larger
  JSON number is rounded to the nearest double when the body is parsed, and `String` then writes
  the shortest digits that identify that double, padded with zeros (2^60 is written
  "1152921504606847000"); from 10^21 on it uses exponent notation ("1e+21"). Neither is modelled.
- Object key order is not modelled. Objects are maps, and duplicate keys keep the last value,
  as JSON parsing does.
- Strings are sequences of code points, not UTF-16 code units. Nothing in the handler measures
  or slices a string.
- The outer catch is also reached when `res.json` itself fails, which is not modelled. The
  outer catch is modelled for the exceptions the handler's own code can raise.
- async/await is not modelled. The only suspension is the upload, and no state is shared
  between calls.
- `ServerProperties.RemoteSuccess` states the success shape only for a string `url`. Other
  `url` values go through `TemplateString`, and a missing `url` gives the text "undefined".
- `Render.NewlineCount` and `Render.SplitRenderHtml` hold only for messages without embedded
  newlines. The document is still the exact join (`RenderHtmlAppend`) when messages have them.

## Findings

| source | as written | input that shows it | evidently intended | confidence | as-written member | corrected member |
|---|---|---|---|---|---|---|
| server.js:22-24 | the notification branch logs `${method}` before replying, and that conversion throws for an object method with its own `toString` key, so the outer catch replies 500 with -32603 and id null (`Server.HandleAsWritten`) | `{"method": {"toString": 1}}` with no `id` | a notification is never answered with an error: 204 with no body | high; not executed | `ServerProperties.NotificationLogThrows` | `ServerProperties.NotificationIsNoContent` |
