/**
 * The static results of `initialize` and `tools/list`: the server identity
 * and the registry of its one tool, `saveConversation`, with the JSON Schema
 * of its arguments.
 */
module Registry {
  import opened Wrappers
  import opened JsValues

  const ToolName: string := "saveConversation"
  const ServerName: string := "Claude \U{2192} AIArchives Bridge"
  const ServerVersion: string := "1.1.0"
  const ProtocolVersion: string := "2025-06-18"

  function StringType(): JVal {
    JObj(map["type" := JStr("string")])
  }

  /** The schema of one message: an object with string `role` and `content`, both required. */
  function MessageSchema(): JVal {
    JObj(map[
      "type" := JStr("object"),
      "properties" := JObj(map["role" := StringType(), "content" := StringType()]),
      "required" := JArr([JStr("role"), JStr("content")])])
  }

  /** The schema of the tool's arguments: an object whose required `messages` is an array of messages. */
  function InputSchema(): (s: JVal)
    ensures Get(s, "required") == Some(JArr([JStr("messages")]))
    ensures Get(s, "properties").Some?
    ensures Get(Get(s, "properties").value, "messages").Some?
    ensures Get(Get(Get(s, "properties").value, "messages").value, "type") == Some(JStr("array"))
  {
    JObj(map[
      "type" := JStr("object"),
      "properties" := JObj(map["messages" := JObj(map["type" := JStr("array"), "items" := MessageSchema()])]),
      "required" := JArr([JStr("messages")])])
  }

  /** The one tool descriptor: name, description and input schema. */
  function SaveConversationTool(): (t: JVal)
    ensures Get(t, "name") == Some(JStr(ToolName))
    ensures Get(t, "inputSchema") == Some(InputSchema())
  {
    JObj(map[
      "name" := JStr(ToolName),
      "description" := JStr("Saves the current Claude chat to AIArchives."),
      "inputSchema" := InputSchema()])
  }

  /** The result of `tools/list`: the registry as an array of descriptors, in registry order. */
  function ToolsListResult(): (r: JVal)
    ensures Get(r, "tools") == Some(JArr([SaveConversationTool()]))
  {
    JObj(map["tools" := JArr([SaveConversationTool()])])
  }

  /** The result of `initialize`: protocol version, declared capabilities and server identity. */
  function InitializeResult(): (r: JVal)
    ensures Get(r, "protocolVersion") == Some(JStr(ProtocolVersion))
    ensures Get(r, "capabilities") == Some(JObj(map["tools" := JObj(map[])]))
    ensures Get(r, "serverInfo") == Some(JObj(map["name" := JStr(ServerName), "version" := JStr(ServerVersion)]))
  {
    JObj(map[
      "protocolVersion" := JStr(ProtocolVersion),
      "capabilities" := JObj(map["tools" := JObj(map[])]),
      "serverInfo" := JObj(map["name" := JStr(ServerName), "version" := JStr(ServerVersion)])])
  }

  /** The names of the tools a `tools/list` result describes. */
  function ListedNames(list: JVal): set<string> {
    match Get(list, "tools")
    case Some(JArr(tools)) =>
      set i | 0 <= i < |tools| && tools[i].JObj? && "name" in tools[i].fields
                && tools[i].fields["name"].JStr? :: tools[i].fields["name"].s
    case _ => {}
  }

  /** `tools/list` describes exactly one tool, `saveConversation`. */
  lemma ListedToolNames()
    ensures ListedNames(ToolsListResult()) == {ToolName}
  {
    var tools := [SaveConversationTool()];
    assert Get(tools[0], "name") == Some(JStr(ToolName));
  }
}
