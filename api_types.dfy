/**
 * The request and response shapes the proxy exchanges: the Anthropic Messages API on the
 * client side (as pydantic validates it) and the OpenAI-style completion object on the
 * upstream side. Open-ended dicts stay `Json` objects.
 */
module ApiTypes {
  import opened Wrappers
  import opened Json

  /** A Python dict with string keys, in insertion order. */
  type Dict = seq<(string, Json)>

  /** The content blocks of an Anthropic message. */
  datatype Block =
    | TextBlock(text: string)
    | ImageBlock(source: Dict)
    | ToolUseBlock(id: string, name: string, input: Dict)
    | ToolResultBlock(toolUseId: string, content: Json)

  datatype Content = ContentText(text: string) | ContentBlocks(blocks: seq<Block>)

  /** `role` is one of `user`, `assistant`, `system`. */
  datatype Message = Message(role: string, content: Content)

  /** `system`: absent or `None`, a string, or a list of text blocks (their texts). */
  datatype System = NoSystem | SystemText(text: string) | SystemBlocks(texts: seq<string>)

  datatype Tool = Tool(name: string, description: Option<string>, inputSchema: Dict)

  /**
   * `MessagesRequest` after validation. `tools` and `toolChoice` are empty when absent;
   * `stopSequences`, `stream`, `temperature`, `topP` and `topK` are passed through as values.
   */
  datatype MessagesRequest = MessagesRequest(
    model: string,
    maxTokens: int,
    messages: seq<Message>,
    system: System,
    stopSequences: Json,
    stream: Json,
    temperature: Json,
    topP: Json,
    topK: Json,
    tools: seq<Tool>,
    toolChoice: Dict)

  /** The blocks of an Anthropic response. */
  datatype OutBlock = OutText(text: string) | OutToolUse(id: string, name: string, input: Dict)

  datatype Usage = Usage(inputTokens: int, outputTokens: int)

  datatype MessagesResponse = MessagesResponse(
    id: string, model: string, content: seq<OutBlock>, stopReason: string, usage: Usage)

  /** An upstream tool call: its id, function name and JSON argument text. */
  datatype ToolCall = ToolCall(id: Json, name: Json, arguments: string)

  /** `choices[i].message`: `content` None or a string, `toolCalls` empty when None. */
  datatype ChoiceMessage = ChoiceMessage(content: Option<string>, toolCalls: seq<ToolCall>)

  datatype Choice = Choice(message: ChoiceMessage, finishReason: Option<string>)

  /** `usage`: `prompt_tokens` and `completion_tokens`, each an int or None. */
  datatype UsageInfo = UsageInfo(promptTokens: Option<int>, completionTokens: Option<int>)

  /** The upstream completion object; `adapt_response_from_cfp` updates it in place. */
  class ModelResponse {
    var id: string
    var choices: seq<Choice>
    var usage: UsageInfo
    var fromCfp: bool

    constructor (id: string, choices: seq<Choice>, usage: UsageInfo)
      ensures this.id == id && this.choices == choices && this.usage == usage && !fromCfp
    {
      this.id := id;
      this.choices := choices;
      this.usage := usage;
      fromCfp := false;
    }
  }
}
