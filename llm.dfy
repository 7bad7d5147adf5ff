/**
 * The chat message model of the agent (src/llm.rs): messages with optional
 * content, tool calls and tool-call id, their constructors, tool definitions,
 * the decoding of an OpenAI-style chat completion reply, and the base URL of
 * the OpenRouter client.
 */
module Llm {
  import opened Wrappers
  import opened Text
  import opened Json

  datatype FunctionCall = FunctionCall(name: string, arguments: string)

  /** A tool call requested by the model; `kind` is the wire field "type". */
  datatype ToolCall = ToolCall(id: string, kind: string, call: FunctionCall)

  datatype Message = Message(
    role: string,
    content: Option<string>,
    toolCalls: Option<seq<ToolCall>>,
    toolCallId: Option<string>)

  datatype FunctionDef = FunctionDef(name: string, description: string, parameters: Json)

  datatype ToolDef = ToolDef(kind: string, def: FunctionDef)

  datatype LlmResponse = LlmResponse(content: Option<string>, toolCalls: seq<ToolCall>)

  // ------------------------------------------------------------ constructors

  function System(content: string): Message {
    Message("system", Some(content), None, None)
  }

  function User(content: string): Message {
    Message("user", Some(content), None, None)
  }

  function Assistant(content: string): Message {
    Message("assistant", Some(content), None, None)
  }

  function AssistantWithToolCalls(content: Option<string>, toolCalls: seq<ToolCall>): Message {
    Message("assistant", content, Some(toolCalls), None)
  }

  function ToolResult(id: string, content: string): Message {
    Message("tool", Some(content), None, Some(id))
  }

  /** Which constructor made a message, with its arguments. */
  datatype Ctor =
    | SystemCtor(content: string)
    | UserCtor(content: string)
    | AssistantCtor(content: string)
    | AssistantWithToolCallsCtor(text: Option<string>, calls: seq<ToolCall>)
    | ToolResultCtor(id: string, content: string)

  function Build(c: Ctor): Message {
    match c
    case SystemCtor(s) => System(s)
    case UserCtor(s) => User(s)
    case AssistantCtor(s) => Assistant(s)
    case AssistantWithToolCallsCtor(t, calls) => AssistantWithToolCalls(t, calls)
    case ToolResultCtor(id, s) => ToolResult(id, s)
  }

  /** Recovers the constructor and its arguments from a message, when some constructor can make it. */
  function Classify(m: Message): Option<Ctor> {
    match (m.role, m.content, m.toolCalls, m.toolCallId)
    case ("system", Some(s), None, None) => Some(SystemCtor(s))
    case ("user", Some(s), None, None) => Some(UserCtor(s))
    case ("assistant", Some(s), None, None) => Some(AssistantCtor(s))
    case ("assistant", t, Some(calls), None) => Some(AssistantWithToolCallsCtor(t, calls))
    case ("tool", Some(s), None, Some(id)) => Some(ToolResultCtor(id, s))
    case _ => None
  }

  /**
   * The constructors are injective and never overlap: the message alone tells
   * which constructor made it and with which arguments.
   */
  lemma ClassifyBuild(c: Ctor)
    ensures Classify(Build(c)) == Some(c)
  {
  }

  /** Which fields each constructor sets. */
  lemma ConstructorFields(c: Ctor)
    ensures Build(c).role == "system" <==> c.SystemCtor?
    ensures Build(c).role == "user" <==> c.UserCtor?
    ensures Build(c).role == "assistant" <==> c.AssistantCtor? || c.AssistantWithToolCallsCtor?
    ensures Build(c).role == "tool" <==> c.ToolResultCtor?
    ensures Build(c).toolCalls.Some? <==> c.AssistantWithToolCallsCtor?
    ensures Build(c).toolCallId.Some? <==> c.ToolResultCtor?
    ensures !c.AssistantWithToolCallsCtor? ==> Build(c).content == Some(c.content)
  {
  }

  // ------------------------------------------------------------ chat decode

  /** The status and body of the HTTP reply to a chat request. */
  datatype HttpReply = HttpReply(status: int, body: string)

  /** The message of one choice of a chat completion. */
  datatype ChoiceMessage = ChoiceMessage(content: Option<string>, toolCalls: Option<seq<ToolCall>>)

  datatype LlmError =
    | SendFailed
    | ApiError(status: int, body: string)
    | ParseFailed
    | NoChoices

  predicate IsSuccess(status: int) {
    200 <= status <= 299
  }

  /**
   * The decode half of `chat`: `reply` is None when the request could not be
   * sent, and `parse` stands for deserializing the body into its choices.
   */
  function DecodeChat(reply: Option<HttpReply>, parse: string -> Option<seq<ChoiceMessage>>): (r: Result<LlmResponse, LlmError>)
    ensures reply.None? ==> r == Err(SendFailed)
    ensures reply.Some? && !IsSuccess(reply.value.status) ==> r == Err(ApiError(reply.value.status, reply.value.body))
    ensures r.Ok? <==> reply.Some? && IsSuccess(reply.value.status) && parse(reply.value.body).Some? && |parse(reply.value.body).value| > 0
    ensures r.Ok? ==> var first := parse(reply.value.body).value[0];
      r.value.content == first.content && r.value.toolCalls == first.toolCalls.GetOr([])
  {
    match reply
    case None => Err(SendFailed)
    case Some(HttpReply(status, body)) =>
      if !IsSuccess(status) then Err(ApiError(status, body))
      else match parse(body)
        case None => Err(ParseFailed)
        case Some(choices) =>
          if |choices| == 0 then Err(NoChoices)
          else Ok(LlmResponse(choices[0].content, choices[0].toolCalls.GetOr([])))
  }

  /** The text of an error, as `anyhow` renders it. */
  function ErrorText(e: LlmError): (r: string)
    ensures e.ApiError? ==> IsPrefix("LLM API error (", r)
  {
    match e
    case SendFailed => "Failed to call LLM API"
    case ApiError(status, body) => "LLM API error (" + (if status < 0 then "-" + NatToString(-status) else NatToString(status)) + "): " + body
    case ParseFailed => "Failed to parse LLM response"
    case NoChoices => "No choices in LLM response"
  }

  // ------------------------------------------------------------ client

  const DefaultBaseUrl: string := "https://openrouter.ai/api/v1"

  datatype OpenRouterClient = OpenRouterClient(baseUrl: string, apiKey: string, model: string, maxTokens: nat)

  /** create_client: the configured base URL or the OpenRouter default, without trailing '/'. */
  function CreateClient(baseUrl: Option<string>, apiKey: string, model: string, maxTokens: nat): (r: OpenRouterClient)
    ensures var chosen := if baseUrl.Some? then baseUrl.value else DefaultBaseUrl;
      && IsPrefix(r.baseUrl, chosen)
      && (r.baseUrl == [] || r.baseUrl[|r.baseUrl| - 1] != '/')
      && forall i :: |r.baseUrl| <= i < |chosen| ==> chosen[i] == '/'
    ensures r.apiKey == apiKey && r.model == model && r.maxTokens == maxTokens
  {
    OpenRouterClient(TrimEnd(baseUrl.GetOr(DefaultBaseUrl), '/'), apiKey, model, maxTokens)
  }

  /** Without a configured URL the client talks to OpenRouter. */
  lemma DefaultClientUrl(apiKey: string, model: string, maxTokens: nat)
    ensures CreateClient(None, apiKey, model, maxTokens).baseUrl == "https://openrouter.ai/api/v1"
  {
    assert DefaultBaseUrl[|DefaultBaseUrl| - 1] == '1';
  }

  /** `format!("{}/chat/completions", base_url)`. */
  function ChatUrl(client: OpenRouterClient): (r: string)
    ensures IsPrefix(client.baseUrl, r) && IsSuffix("/chat/completions", r)
    ensures r[|client.baseUrl|..] == "/chat/completions"
  {
    client.baseUrl + "/chat/completions"
  }
}
