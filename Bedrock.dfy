/** The pure helpers of the model client (AgentSynapse/core/bedrockClient.py):
    token estimate, message formatting, tool-call and text extraction from a
    model response, and the request body `invokeModel` sends. The transport
    itself (the AWS call and its JSON decoding) is not modelled: a response
    is a value. */
module Bedrock {
  import opened Values

  const AnthropicVersion := "bedrock-2023-05-31"
  const UserRole := "user"
  const AssistantRole := "assistant"

  /** A content block of a model response, by its "type" field. Missing
      fields of a block are `None`. */
  datatype ContentBlock =
    | TextBlock(text: Option<string>)
    | ToolUseBlock(id: Option<string>, name: Option<string>, input: Option<PyValue>)
    | OtherBlock(kind: Option<string>)

  /** A decoded model response: its "content" list (missing means empty)
      and its "usage"."total_tokens" (missing means `None`). */
  datatype ModelResponse = ModelResponse(content: seq<ContentBlock>, totalTokens: Option<nat>)
  {
    /** `response.get("usage", {}).get("total_tokens", 0)`. */
    function Tokens(): nat
    {
      if totalTokens.Some? then totalTokens.value else 0
    }
  }

  /** One entry of `extractToolCalls`. */
  datatype ToolCall = ToolCall(id: Option<string>, name: Option<string>, input: PyValue)

  /** The body of a tool-result message: a string result as it is, any other
      value as its JSON text (`json.dumps`). */
  datatype ToolResultBody = Raw(text: string) | Json(value: PyValue)

  datatype MessageContent =
    | TextContent(text: string)
    | BlockContent(blocks: seq<ContentBlock>)
    | ToolResultContent(toolUseId: Option<string>, body: ToolResultBody)

  /** A chat message `{"role": ..., "content": ...}`. */
  datatype Message = Message(role: string, content: MessageContent)

  /** A tool as the model is told about it (`formatForBedrock`). */
  datatype BedrockTool = BedrockTool(name: string, description: string, inputSchema: PyValue)

  /** The JSON body `invokeModel` sends; the optional keys are `None` when absent. */
  datatype RequestBody = RequestBody(
    anthropicVersion: string,
    messages: seq<Message>,
    maxTokens: int,
    temperature: real,
    system: Option<string>,
    tools: Option<seq<BedrockTool>>,
    stopSequences: Option<seq<string>>)

  /** `countTokens`: a quarter of the length, rounded down. */
  function CountTokens(text: string): (n: nat)
    ensures 4 * n <= |text| < 4 * n + 4
  {
    |text| / 4
  }

  /** `formatMessages`: the history (when given and non-empty) followed by
      the user's message. */
  function FormatMessages(userMessage: string, history: Option<seq<Message>>): (r: seq<Message>)
    ensures |r| >= 1 && r[|r| - 1] == Message(UserRole, TextContent(userMessage))
    ensures r[..|r| - 1] == if history.Some? then history.value else []
  {
    var prior := if history.Some? && history.value != [] then history.value else [];
    prior + [Message(UserRole, TextContent(userMessage))]
  }

  /** `formatToolResult`: a user turn with one tool_result block for `toolUseId`. */
  function FormatToolResult(toolUseId: Option<string>, result: PyValue): (m: Message)
    ensures m.role == UserRole && m.content.ToolResultContent? && m.content.toolUseId == toolUseId
    ensures result.PStr? ==> m.content.body == Raw(result.s)
    ensures !result.PStr? ==> m.content.body == Json(result)
  {
    Message(UserRole, ToolResultContent(toolUseId, if result.PStr? then Raw(result.s) else Json(result)))
  }

  /** The tool call a tool_use block stands for; a missing input is `{}`. */
  function CallOf(b: ContentBlock): ToolCall
    requires b.ToolUseBlock?
  {
    ToolCall(b.id, b.name, if b.input.Some? then b.input.value else PDict([]))
  }

  /** `extractToolCalls`: one call per tool_use block, in block order. */
  function ExtractToolCalls(content: seq<ContentBlock>): (calls: seq<ToolCall>)
    ensures |calls| <= |content|
    ensures forall c :: c in calls ==> exists j :: 0 <= j < |content| && content[j].ToolUseBlock? && c == CallOf(content[j])
  {
    if content == [] then []
    else
      var rest := ExtractToolCalls(content[1..]);
      assert forall j :: 0 <= j < |content[1..]| ==> content[1..][j] == content[j + 1];
      if content[0].ToolUseBlock? then [CallOf(content[0])] + rest else rest
  }

  /** Extraction distributes over concatenation of block lists, so it keeps
      block order. */
  lemma {:induction false} ExtractToolCallsAppend(a: seq<ContentBlock>, b: seq<ContentBlock>)
    ensures ExtractToolCalls(a + b) == ExtractToolCalls(a) + ExtractToolCalls(b)
  {
    if a != [] {
      assert (a + b)[1..] == a[1..] + b;
      ExtractToolCallsAppend(a[1..], b);
    } else {
      assert a + b == b;
    }
  }

  /** A response asks for no tool exactly when it holds no tool_use block. */
  lemma {:induction false} NoToolCalls(content: seq<ContentBlock>)
    ensures ExtractToolCalls(content) == [] <==> forall j :: 0 <= j < |content| ==> !content[j].ToolUseBlock?
  {
    if content != [] {
      NoToolCalls(content[1..]);
      assert forall j :: 0 <= j < |content[1..]| ==> content[1..][j] == content[j + 1];
    }
  }

  /** The index of the first text block, or `|content|` when there is none. */
  function FirstText(content: seq<ContentBlock>): (k: nat)
    ensures k <= |content|
    ensures forall j :: 0 <= j < k ==> !content[j].TextBlock?
    ensures k < |content| ==> content[k].TextBlock?
  {
    if content == [] || content[0].TextBlock? then 0 else 1 + FirstText(content[1..])
  }

  /** `extractTextResponse`: the text of the first text block (a missing
      text is ""), or "" when there is no text block. */
  function ExtractTextResponse(content: seq<ContentBlock>): (r: string)
    ensures var k := FirstText(content);
      r == if k < |content| && content[k].text.Some? then content[k].text.value else ""
  {
    if content == [] then ""
    else if content[0].TextBlock? then (if content[0].text.Some? then content[0].text.value else "")
    else ExtractTextResponse(content[1..])
  }

  /** The request body of `invokeModel`: the four fixed keys always, and
      "system", "tools" and "stop_sequences" only when their argument is
      truthy. */
  function RequestBodyOf(messages: seq<Message>, systemPrompt: Option<string>, temperature: real,
                         maxTokens: int, tools: Option<seq<BedrockTool>>,
                         stopSequences: Option<seq<string>>): (b: RequestBody)
    ensures b.anthropicVersion == AnthropicVersion && b.messages == messages
    ensures b.maxTokens == maxTokens && b.temperature == temperature
    ensures b.system.Some? <==> Given(systemPrompt)
    ensures b.system.Some? ==> b.system == systemPrompt
    ensures b.tools.Some? <==> tools.Some? && tools.value != []
    ensures b.tools.Some? ==> b.tools == tools
    ensures b.stopSequences.Some? <==> stopSequences.Some? && stopSequences.value != []
    ensures b.stopSequences.Some? ==> b.stopSequences == stopSequences
  {
    RequestBody(
      AnthropicVersion, messages, maxTokens, temperature,
      if Given(systemPrompt) then systemPrompt else None,
      if tools.Some? && tools.value != [] then tools else None,
      if stopSequences.Some? && stopSequences.value != [] then stopSequences else None)
  }
}
