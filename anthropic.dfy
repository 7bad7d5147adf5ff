/**
 * The Anthropic Messages API client (src/llm/anthropic.rs), without the HTTP
 * exchange: the base URL, the conversion of tool definitions, the conversion
 * of a chat history into a `system` field plus user/assistant turns made of
 * content blocks, and the decoding of the reply's content blocks.
 *
 * JSON parsing of tool-call arguments and JSON serialization of tool inputs
 * are parameters (`parse`, `serialize`).
 */
module Anthropic {
  import opened Wrappers
  import opened Text
  import opened Json
  import Llm

  const DefaultBaseUrl: string := "https://api.anthropic.com"

  /** The `anthropic-version` header of every request. */
  const ApiVersion: string := "2023-06-01"

  datatype AnthropicClient = AnthropicClient(baseUrl: string, apiKey: string, model: string, maxTokens: nat)

  /** AnthropicClient::new: the configured base URL or the default, without trailing '/'. */
  function NewClient(baseUrl: Option<string>, apiKey: string, model: string, maxTokens: nat): (r: AnthropicClient)
    ensures var chosen := if baseUrl.Some? then baseUrl.value else DefaultBaseUrl;
      && IsPrefix(r.baseUrl, chosen)
      && (r.baseUrl == [] || r.baseUrl[|r.baseUrl| - 1] != '/')
      && forall i :: |r.baseUrl| <= i < |chosen| ==> chosen[i] == '/'
    ensures baseUrl.None? ==> r.baseUrl == "https://api.anthropic.com"
    ensures r.apiKey == apiKey && r.model == model && r.maxTokens == maxTokens
  {
    assert DefaultBaseUrl[|DefaultBaseUrl| - 1] == 'm';
    AnthropicClient(TrimEnd(baseUrl.GetOr(DefaultBaseUrl), '/'), apiKey, model, maxTokens)
  }

  /** `format!("{}/v1/messages", base_url)`. */
  function MessagesUrl(client: AnthropicClient): (r: string)
    ensures IsPrefix(client.baseUrl, r) && IsSuffix("/v1/messages", r)
    ensures r[|client.baseUrl|..] == "/v1/messages"
  {
    client.baseUrl + "/v1/messages"
  }

  // ------------------------------------------------------------ tools

  datatype AnthropicToolDef = AnthropicToolDef(name: string, description: string, inputSchema: Json)

  /** convert_tools: one definition per tool, in order, with name, description and schema copied. */
  function ConvertTools(tools: seq<Llm.ToolDef>): (r: seq<AnthropicToolDef>)
    ensures |r| == |tools|
    ensures forall i :: 0 <= i < |tools| ==>
      && r[i].name == tools[i].def.name
      && r[i].description == tools[i].def.description
      && r[i].inputSchema == tools[i].def.parameters
  {
    seq(|tools|, i requires 0 <= i < |tools| =>
      AnthropicToolDef(tools[i].def.name, tools[i].def.description, tools[i].def.parameters))
  }

  // ------------------------------------------------------------ messages

  datatype ContentBlock =
    | TextBlock(text: string)
    | ToolUseBlock(id: string, name: string, input: Json)
    | ToolResultBlock(toolUseId: string, content: string)

  datatype AnthropicContent = TextContent(text: string) | BlockContent(blocks: seq<ContentBlock>)

  datatype AnthropicMessage = AnthropicMessage(role: string, content: AnthropicContent)

  /** The result of convert_messages: the hoisted system text and the turns. */
  datatype Converted = Converted(system: Option<string>, messages: seq<AnthropicMessage>)

  /** A tool call's arguments as JSON; text that does not parse becomes `{}`. */
  function ToolInput(tc: Llm.ToolCall, parse: string -> Option<Json>): (r: Json)
    ensures parse(tc.call.arguments).None? ==> r == EmptyObject
    ensures parse(tc.call.arguments).Some? ==> r == parse(tc.call.arguments).value
  {
    parse(tc.call.arguments).GetOr(EmptyObject)
  }

  /** One tool_use block per tool call, in order. */
  function ToolUses(calls: seq<Llm.ToolCall>, parse: string -> Option<Json>): (r: seq<ContentBlock>)
    ensures |r| == |calls|
    ensures forall i :: 0 <= i < |calls| ==> r[i] == ToolUseBlock(calls[i].id, calls[i].call.name, ToolInput(calls[i], parse))
    decreases |calls|
  {
    if calls == [] then []
    else
      var last := calls[|calls| - 1];
      ToolUses(calls[..|calls| - 1], parse) + [ToolUseBlock(last.id, last.call.name, ToolInput(last, parse))]
  }

  /**
   * The blocks of an assistant turn: its text when non-empty, then its tool
   * calls; a single empty text block when there is neither.
   */
  function AssistantBlocks(msg: Llm.Message, parse: string -> Option<Json>): (r: seq<ContentBlock>)
    ensures |r| > 0
    ensures forall b :: b in r ==> !b.ToolResultBlock?
    ensures var calls := msg.toolCalls.GetOr([]);
      msg.content.Some? && msg.content.value != "" ==> r == [TextBlock(msg.content.value)] + ToolUses(calls, parse)
    ensures var calls := msg.toolCalls.GetOr([]);
      !(msg.content.Some? && msg.content.value != "") && calls != [] ==> r == ToolUses(calls, parse)
    ensures var calls := msg.toolCalls.GetOr([]);
      !(msg.content.Some? && msg.content.value != "") && calls == [] ==> r == [TextBlock("")]
  {
    var text := if msg.content.Some? && msg.content.value != "" then [TextBlock(msg.content.value)] else [];
    var uses := if msg.toolCalls.Some? then ToolUses(msg.toolCalls.value, parse) else [];
    if text + uses == [] then [TextBlock("")] else text + uses
  }

  /** A user turn made only of tool_result blocks: later tool results are merged into it. */
  predicate IsToolResultTurn(m: AnthropicMessage) {
    m.role == "user" && m.content.BlockContent? && forall b :: b in m.content.blocks ==> b.ToolResultBlock?
  }

  /** One iteration of convert_messages. */
  function Step(st: Converted, msg: Llm.Message, parse: string -> Option<Json>): Converted {
    match msg.role
    case "system" =>
      var text := msg.content.GetOr("");
      Converted(if st.system.Some? then Some(st.system.value + "\n\n" + text) else Some(text), st.messages)
    case "user" =>
      Converted(st.system, st.messages + [AnthropicMessage("user", TextContent(msg.content.GetOr("")))])
    case "assistant" =>
      Converted(st.system, st.messages + [AnthropicMessage("assistant", BlockContent(AssistantBlocks(msg, parse)))])
    case "tool" =>
      var block := ToolResultBlock(msg.toolCallId.GetOr(""), msg.content.GetOr(""));
      var n := |st.messages|;
      if n > 0 && IsToolResultTurn(st.messages[n - 1]) then
        var last := st.messages[n - 1];
        Converted(st.system, st.messages[..n - 1] + [AnthropicMessage(last.role, BlockContent(last.content.blocks + [block]))])
      else
        Converted(st.system, st.messages + [AnthropicMessage("user", BlockContent([block]))])
    case _ => st
  }

  /** convert_messages as a left fold of Step over the history. */
  function Convert(msgs: seq<Llm.Message>, parse: string -> Option<Json>): Converted
    decreases |msgs|
  {
    if msgs == [] then Converted(None, [])
    else Step(Convert(msgs[..|msgs| - 1], parse), msgs[|msgs| - 1], parse)
  }

  /** The loop over an assistant turn's tool calls, each pushed as a tool_use block. */
  method PushToolUses(blocks: seq<ContentBlock>, calls: seq<Llm.ToolCall>, parse: string -> Option<Json>) returns (out: seq<ContentBlock>)
    ensures out == blocks + ToolUses(calls, parse)
  {
    out := blocks;
    var j := 0;
    while j < |calls|
      invariant 0 <= j <= |calls|
      invariant out == blocks + ToolUses(calls[..j], parse)
    {
      assert calls[..j + 1][..j] == calls[..j];
      var input := parse(calls[j].call.arguments).GetOr(EmptyObject);
      out := out + [ToolUseBlock(calls[j].id, calls[j].call.name, input)];
      j := j + 1;
    }
    assert calls[..j] == calls;
  }

  /** The blocks of one assistant turn. */
  method AssistantTurnBlocks(msg: Llm.Message, parse: string -> Option<Json>) returns (blocks: seq<ContentBlock>)
    ensures blocks == AssistantBlocks(msg, parse)
  {
    blocks := [];
    if msg.content.Some? && msg.content.value != "" {
      blocks := blocks + [TextBlock(msg.content.value)];
    }
    if msg.toolCalls.Some? {
      blocks := PushToolUses(blocks, msg.toolCalls.value, parse);
    }
    if blocks == [] {
      blocks := [TextBlock("")];
    }
  }

  /** convert_messages: the loop over the history. */
  method ConvertMessages(messages: seq<Llm.Message>, parse: string -> Option<Json>)
    returns (system: Option<string>, result: seq<AnthropicMessage>)
    ensures Converted(system, result) == Convert(messages, parse)
  {
    system := None;
    result := [];
    var i := 0;
    while i < |messages|
      invariant 0 <= i <= |messages|
      invariant Converted(system, result) == Convert(messages[..i], parse)
    {
      var msg := messages[i];
      assert messages[..i + 1][..i] == messages[..i];
      ghost var next := Step(Converted(system, result), msg, parse);
      if msg.role == "system" {
        var text := msg.content.GetOr("");
        if system.Some? {
          system := Some(system.value + "\n\n" + text);
        } else {
          system := Some(text);
        }
      } else if msg.role == "user" {
        result := result + [AnthropicMessage("user", TextContent(msg.content.GetOr("")))];
      } else if msg.role == "assistant" {
        var blocks := AssistantTurnBlocks(msg, parse);
        result := result + [AnthropicMessage("assistant", BlockContent(blocks))];
      } else if msg.role == "tool" {
        var block := ToolResultBlock(msg.toolCallId.GetOr(""), msg.content.GetOr(""));
        if |result| > 0 && IsToolResultTurn(result[|result| - 1]) {
          var last := result[|result| - 1];
          result := result[..|result| - 1] + [AnthropicMessage(last.role, BlockContent(last.content.blocks + [block]))];
        } else {
          result := result + [AnthropicMessage("user", BlockContent([block]))];
        }
      }
      assert Converted(system, result) == next;
      i := i + 1;
    }
    assert messages[..i] == messages;
  }

  // ---------------------------------------------------------- properties

  lemma ConvertSnoc(msgs: seq<Llm.Message>, msg: Llm.Message, parse: string -> Option<Json>)
    ensures Convert(msgs + [msg], parse) == Step(Convert(msgs, parse), msg, parse)
  {
    assert (msgs + [msg])[..|msgs|] == msgs;
  }

  /** The texts of the system messages, in order. */
  function SystemTexts(msgs: seq<Llm.Message>): seq<string>
    decreases |msgs|
  {
    if msgs == [] then []
    else
      var last := msgs[|msgs| - 1];
      SystemTexts(msgs[..|msgs| - 1]) + (if last.role == "system" then [last.content.GetOr("")] else [])
  }

  /** The system field is every system text joined by a blank line, or None when there is none. */
  lemma {:induction false} SystemHoisted(msgs: seq<Llm.Message>, parse: string -> Option<Json>)
    ensures Convert(msgs, parse).system == if SystemTexts(msgs) == [] then None else Some(Join(SystemTexts(msgs), "\n\n"))
    decreases |msgs|
  {
    if msgs != [] {
      var init, last := msgs[..|msgs| - 1], msgs[|msgs| - 1];
      SystemHoisted(init, parse);
      var st := Convert(init, parse);
      assert Convert(msgs, parse) == Step(st, last, parse);
      if last.role == "system" {
        var text := last.content.GetOr("");
        assert SystemTexts(msgs) == SystemTexts(init) + [text];
        if SystemTexts(init) != [] {
          JoinSnoc(SystemTexts(init), text, "\n\n");
          assert Convert(msgs, parse).system == Some(st.system.value + "\n\n" + text);
        } else {
          assert SystemTexts(msgs) == [text];
        }
      } else {
        assert SystemTexts(msgs) == SystemTexts(init);
        assert Convert(msgs, parse).system == st.system;
      }
    }
  }

  /** Every output turn is a user or an assistant turn: system messages never reach the list. */
  lemma {:induction false} OnlyUserAndAssistantTurns(msgs: seq<Llm.Message>, parse: string -> Option<Json>)
    ensures forall m :: m in Convert(msgs, parse).messages ==> m.role == "user" || m.role == "assistant"
    decreases |msgs|
  {
    if msgs != [] {
      var init := msgs[..|msgs| - 1];
      OnlyUserAndAssistantTurns(init, parse);
      var prev := Convert(init, parse).messages;
      var n := |prev|;
      if msgs[|msgs| - 1].role == "tool" && n > 0 && IsToolResultTurn(prev[n - 1]) {
        forall m | m in prev[..n - 1] ensures m.role == "user" || m.role == "assistant" {
          var k :| 0 <= k < n - 1 && prev[..n - 1][k] == m;
          assert prev[k] == m;
        }
      }
    }
  }

  /** No output turn has an empty block list. */
  lemma {:induction false} BlocksNeverEmpty(msgs: seq<Llm.Message>, parse: string -> Option<Json>)
    ensures forall m :: m in Convert(msgs, parse).messages && m.content.BlockContent? ==> |m.content.blocks| > 0
    decreases |msgs|
  {
    if msgs != [] {
      var init := msgs[..|msgs| - 1];
      BlocksNeverEmpty(init, parse);
      var prev := Convert(init, parse).messages;
      var n := |prev|;
      if msgs[|msgs| - 1].role == "tool" && n > 0 && IsToolResultTurn(prev[n - 1]) {
        forall m | m in prev[..n - 1] && m.content.BlockContent? ensures |m.content.blocks| > 0 {
          var k :| 0 <= k < n - 1 && prev[..n - 1][k] == m;
          assert prev[k] == m;
        }
      }
    }
  }

  /** No two neighbouring turns both consist of tool results only. */
  predicate NoAdjacentToolTurns(out: seq<AnthropicMessage>) {
    forall i :: 0 <= i < |out| - 1 ==> !(IsToolResultTurn(out[i]) && IsToolResultTurn(out[i + 1]))
  }

  lemma StepKeepsNoAdjacentToolTurns(st: Converted, msg: Llm.Message, parse: string -> Option<Json>)
    requires NoAdjacentToolTurns(st.messages)
    ensures NoAdjacentToolTurns(Step(st, msg, parse).messages)
  {
    var prev := st.messages;
    var n := |prev|;
    var out := Step(st, msg, parse).messages;
    if msg.role == "tool" && n > 0 && IsToolResultTurn(prev[n - 1]) {
      assert |out| == n && out[..n - 1] == prev[..n - 1];
      if n >= 2 {
        assert !IsToolResultTurn(prev[n - 2]);
      }
      forall i | 0 <= i < |out| - 1 ensures !(IsToolResultTurn(out[i]) && IsToolResultTurn(out[i + 1])) {
        assert out[i] == out[..n - 1][i];
        if i + 1 < n - 1 {
          assert out[i + 1] == out[..n - 1][i + 1];
        }
      }
    } else if msg.role == "user" || msg.role == "assistant" || msg.role == "tool" {
      assert |out| == n + 1 && out[..n] == prev;
      forall i | 0 <= i < |out| - 1 ensures !(IsToolResultTurn(out[i]) && IsToolResultTurn(out[i + 1])) {
        assert out[i] == out[..n][i];
        if i + 1 < n {
          assert out[i + 1] == out[..n][i + 1];
          assert !(IsToolResultTurn(prev[i]) && IsToolResultTurn(prev[i + 1]));
        } else if msg.role == "tool" {
          assert !IsToolResultTurn(prev[n - 1]);
        } else {
          assert !IsToolResultTurn(out[n]);
        }
      }
    } else {
      assert out == prev;
    }
  }

  /** Consecutive tool results share one user turn: no two neighbouring turns are both tool-result turns. */
  lemma {:induction false} ToolResultsMerged(msgs: seq<Llm.Message>, parse: string -> Option<Json>)
    ensures NoAdjacentToolTurns(Convert(msgs, parse).messages)
    decreases |msgs|
  {
    if msgs != [] {
      ToolResultsMerged(msgs[..|msgs| - 1], parse);
      StepKeepsNoAdjacentToolTurns(Convert(msgs[..|msgs| - 1], parse), msgs[|msgs| - 1], parse);
    }
  }

  /** The tool_use_ids of a turn's tool_result blocks, in order. */
  function BlockResultIds(blocks: seq<ContentBlock>): seq<string>
    decreases |blocks|
  {
    if blocks == [] then []
    else
      var last := blocks[|blocks| - 1];
      BlockResultIds(blocks[..|blocks| - 1]) + (if last.ToolResultBlock? then [last.toolUseId] else [])
  }

  function TurnResultIds(m: AnthropicMessage): seq<string> {
    if m.content.BlockContent? then BlockResultIds(m.content.blocks) else []
  }

  /** The tool_use_ids of all output turns, in order. */
  function ResultIds(out: seq<AnthropicMessage>): seq<string>
    decreases |out|
  {
    if out == [] then [] else ResultIds(out[..|out| - 1]) + TurnResultIds(out[|out| - 1])
  }

  /** The ids of the history's tool messages, in order ("" when a tool message has none). */
  function ToolMessageIds(msgs: seq<Llm.Message>): seq<string>
    decreases |msgs|
  {
    if msgs == [] then []
    else
      var last := msgs[|msgs| - 1];
      ToolMessageIds(msgs[..|msgs| - 1]) + (if last.role == "tool" then [last.toolCallId.GetOr("")] else [])
  }

  lemma {:induction false} NoResultIds(blocks: seq<ContentBlock>)
    requires forall b :: b in blocks ==> !b.ToolResultBlock?
    ensures BlockResultIds(blocks) == []
    decreases |blocks|
  {
    if blocks != [] {
      assert forall b :: b in blocks[..|blocks| - 1] ==> b in blocks;
      NoResultIds(blocks[..|blocks| - 1]);
    }
  }

  lemma ResultIdsSnoc(out: seq<AnthropicMessage>, m: AnthropicMessage)
    ensures ResultIds(out + [m]) == ResultIds(out) + TurnResultIds(m)
  {
    assert (out + [m])[..|out|] == out;
  }

  lemma BlockResultIdsSnoc(blocks: seq<ContentBlock>, b: ContentBlock)
    requires b.ToolResultBlock?
    ensures BlockResultIds(blocks + [b]) == BlockResultIds(blocks) + [b.toolUseId]
  {
    assert (blocks + [b])[..|blocks|] == blocks;
  }

  /** Merging a tool result into the last turn extends the ids by the new one. */
  lemma MergeResultIds(init: seq<AnthropicMessage>, last: AnthropicMessage, block: ContentBlock)
    requires last.content.BlockContent? && block.ToolResultBlock?
    ensures ResultIds(init + [AnthropicMessage(last.role, BlockContent(last.content.blocks + [block]))])
      == ResultIds(init + [last]) + [block.toolUseId]
  {
    var merged := AnthropicMessage(last.role, BlockContent(last.content.blocks + [block]));
    BlockResultIdsSnoc(last.content.blocks, block);
    assert TurnResultIds(merged) == TurnResultIds(last) + [block.toolUseId];
    ResultIdsSnoc(init, merged);
    ResultIdsSnoc(init, last);
  }

  /** One step adds the id of a tool message and nothing else. */
  lemma StepResultIds(st: Converted, msg: Llm.Message, parse: string -> Option<Json>)
    ensures ResultIds(Step(st, msg, parse).messages)
      == ResultIds(st.messages) + (if msg.role == "tool" then [msg.toolCallId.GetOr("")] else [])
  {
    var prev := st.messages;
    var n := |prev|;
    var out := Step(st, msg, parse).messages;
    if msg.role == "user" {
      var m := AnthropicMessage("user", TextContent(msg.content.GetOr("")));
      assert out == prev + [m];
      ResultIdsSnoc(prev, m);
    } else if msg.role == "assistant" {
      var blocks := AssistantBlocks(msg, parse);
      var m := AnthropicMessage("assistant", BlockContent(blocks));
      assert out == prev + [m];
      NoResultIds(blocks);
      ResultIdsSnoc(prev, m);
    } else if msg.role == "tool" {
      ToolStepResultIds(prev, ToolResultBlock(msg.toolCallId.GetOr(""), msg.content.GetOr("")));
    } else {
      assert out == prev;
    }
  }

  /** The tool case of StepResultIds: merged into the last turn or pushed as a new one. */
  lemma ToolStepResultIds(prev: seq<AnthropicMessage>, block: ContentBlock)
    requires block.ToolResultBlock?
    ensures var n := |prev|;
      var out := if n > 0 && IsToolResultTurn(prev[n - 1])
        then prev[..n - 1] + [AnthropicMessage(prev[n - 1].role, BlockContent(prev[n - 1].content.blocks + [block]))]
        else prev + [AnthropicMessage("user", BlockContent([block]))];
      ResultIds(out) == ResultIds(prev) + [block.toolUseId]
  {
    var n := |prev|;
    if n > 0 && IsToolResultTurn(prev[n - 1]) {
      var init, last := prev[..n - 1], prev[n - 1];
      MergeResultIds(init, last, block);
      assert init + [last] == prev;
    } else {
      PushedTurnResultIds(prev, block);
    }
  }

  lemma PushedTurnResultIds(prev: seq<AnthropicMessage>, block: ContentBlock)
    requires block.ToolResultBlock?
    ensures ResultIds(prev + [AnthropicMessage("user", BlockContent([block]))]) == ResultIds(prev) + [block.toolUseId]
  {
    BlockResultIdsSnoc([], block);
    assert [] + [block] == [block];
    ResultIdsSnoc(prev, AnthropicMessage("user", BlockContent([block])));
  }

  /** Every tool message becomes exactly one tool_result block: the ids survive, in order. */
  lemma {:induction false} ToolResultIdsPreserved(msgs: seq<Llm.Message>, parse: string -> Option<Json>)
    ensures ResultIds(Convert(msgs, parse).messages) == ToolMessageIds(msgs)
    decreases |msgs|
  {
    if msgs != [] {
      ToolResultIdsPreserved(msgs[..|msgs| - 1], parse);
      StepResultIds(Convert(msgs[..|msgs| - 1], parse), msgs[|msgs| - 1], parse);
    }
  }

  /** A user message becomes a plain-text user turn; a message with any other role leaves the conversion as it was. */
  lemma UserAndUnknownRoles(msgs: seq<Llm.Message>, msg: Llm.Message, parse: string -> Option<Json>)
    ensures var before := Convert(msgs, parse);
      var after := Convert(msgs + [msg], parse);
      && (msg.role == "user" ==> after.messages == before.messages + [AnthropicMessage("user", TextContent(msg.content.GetOr("")))])
      && (msg.role !in {"system", "user", "assistant", "tool"} ==> after == before)
  {
    ConvertSnoc(msgs, msg, parse);
  }

  // ------------------------------------------------------------ reply decode

  datatype ResponseBlock = ResponseText(text: string) | ResponseToolUse(id: string, name: string, input: Json)

  /** The text of the last text block, if any: each text block overwrites `content`. */
  function LastText(blocks: seq<ResponseBlock>): Option<string>
    decreases |blocks|
  {
    if blocks == [] then None
    else if blocks[|blocks| - 1].ResponseText? then Some(blocks[|blocks| - 1].text)
    else LastText(blocks[..|blocks| - 1])
  }

  /** The content of the reply is the text of its last text block, and None exactly when it has none. */
  lemma {:induction false} LastTextIsLast(blocks: seq<ResponseBlock>)
    ensures LastText(blocks).Some? <==> exists i :: 0 <= i < |blocks| && blocks[i].ResponseText?
    ensures LastText(blocks).Some? ==>
      exists i :: (0 <= i < |blocks| && blocks[i] == ResponseText(LastText(blocks).value)
        && forall j :: i < j < |blocks| ==> !blocks[j].ResponseText?)
    decreases |blocks|
  {
    if blocks != [] && !blocks[|blocks| - 1].ResponseText? {
      var init := blocks[..|blocks| - 1];
      LastTextIsLast(init);
      if LastText(blocks).Some? {
        var i :| 0 <= i < |init| && init[i] == ResponseText(LastText(init).value)
          && forall j :: i < j < |init| ==> !init[j].ResponseText?;
        assert blocks[i] == init[i];
        forall j | i < j < |blocks| ensures !blocks[j].ResponseText? {
          if j < |init| { assert blocks[j] == init[j]; }
        }
      } else {
        forall i | 0 <= i < |blocks| ensures !blocks[i].ResponseText? {
          if i < |init| { assert blocks[i] == init[i]; }
        }
      }
    } else if blocks != [] {
      assert blocks[|blocks| - 1] == ResponseText(LastText(blocks).value);
    }
  }

  /** The tool call a tool_use block of the reply becomes. */
  function CallFor(b: ResponseBlock, serialize: Json -> string): (c: Llm.ToolCall)
    requires b.ResponseToolUse?
    ensures c.id == b.id && c.kind == "function" && c.call.name == b.name && c.call.arguments == serialize(b.input)
  {
    Llm.ToolCall(b.id, "function", Llm.FunctionCall(b.name, serialize(b.input)))
  }

  /** How many tool_use blocks a reply has. */
  function ToolUseCount(blocks: seq<ResponseBlock>): nat
    decreases |blocks|
  {
    if blocks == [] then 0
    else ToolUseCount(blocks[..|blocks| - 1]) + (if blocks[|blocks| - 1].ResponseToolUse? then 1 else 0)
  }

  /** The tool calls of the tool_use blocks, in order, with the input serialized as arguments. */
  function CallsOf(blocks: seq<ResponseBlock>, serialize: Json -> string): (r: seq<Llm.ToolCall>)
    ensures |r| <= |blocks|
    ensures forall c :: c in r ==> c.kind == "function"
    ensures (forall i :: 0 <= i < |blocks| ==> blocks[i].ResponseToolUse?) ==>
      |r| == |blocks| && forall i :: 0 <= i < |blocks| ==> r[i].id == blocks[i].id && r[i].call.name == blocks[i].name
    decreases |blocks|
  {
    if blocks == [] then []
    else
      var last := blocks[|blocks| - 1];
      CallsOf(blocks[..|blocks| - 1], serialize)
        + (if last.ResponseToolUse? then [CallFor(last, serialize)] else [])
  }

  /**
   * For any mix of text and tool_use blocks: one call per tool_use block,
   * and the tool_use block with k tool_use blocks before it gives the k-th
   * call, with its id, name and serialized input.
   */
  lemma {:induction false} CallsOfExactly(blocks: seq<ResponseBlock>, serialize: Json -> string)
    ensures |CallsOf(blocks, serialize)| == ToolUseCount(blocks)
    ensures forall i :: 0 <= i < |blocks| && blocks[i].ResponseToolUse? ==>
      ToolUseCount(blocks[..i]) < |CallsOf(blocks, serialize)|
      && CallsOf(blocks, serialize)[ToolUseCount(blocks[..i])] == CallFor(blocks[i], serialize)
    decreases |blocks|
  {
    if blocks != [] {
      var init := blocks[..|blocks| - 1];
      CallsOfExactly(init, serialize);
      forall i | 0 <= i < |blocks| && blocks[i].ResponseToolUse?
        ensures ToolUseCount(blocks[..i]) < |CallsOf(blocks, serialize)|
          && CallsOf(blocks, serialize)[ToolUseCount(blocks[..i])] == CallFor(blocks[i], serialize)
      {
        if i < |init| {
          assert blocks[..i] == init[..i] && blocks[i] == init[i];
        } else {
          assert blocks[..i] == init;
        }
      }
    }
  }

  /** The loop of `chat` over the reply's content blocks. */
  method DecodeBlocks(blocks: seq<ResponseBlock>, serialize: Json -> string) returns (r: Llm.LlmResponse)
    ensures r.content == LastText(blocks)
    ensures r.toolCalls == CallsOf(blocks, serialize)
  {
    var content: Option<string> := None;
    var toolCalls: seq<Llm.ToolCall> := [];
    var i := 0;
    while i < |blocks|
      invariant 0 <= i <= |blocks|
      invariant content == LastText(blocks[..i])
      invariant toolCalls == CallsOf(blocks[..i], serialize)
    {
      assert blocks[..i + 1][..i] == blocks[..i];
      match blocks[i] {
        case ResponseText(text) =>
          content := Some(text);
        case ResponseToolUse(id, name, input) =>
          toolCalls := toolCalls + [CallFor(blocks[i], serialize)];
      }
      i := i + 1;
    }
    assert blocks[..i] == blocks;
    r := Llm.LlmResponse(content, toolCalls);
  }

  datatype AnthropicError = SendFailed | ApiError(status: int, body: string) | ParseFailed

  /** The status and parse checks of `chat`; a non-success status is always an error. */
  function CheckReply(reply: Option<Llm.HttpReply>, parse: string -> Option<seq<ResponseBlock>>): (r: Result<seq<ResponseBlock>, AnthropicError>)
    ensures reply.None? ==> r == Err(SendFailed)
    ensures reply.Some? && !Llm.IsSuccess(reply.value.status) ==> r == Err(ApiError(reply.value.status, reply.value.body))
    ensures r.Ok? <==> reply.Some? && Llm.IsSuccess(reply.value.status) && parse(reply.value.body).Some?
    ensures r.Ok? ==> r.value == parse(reply.value.body).value
  {
    match reply
    case None => Err(SendFailed)
    case Some(rep) =>
      if !Llm.IsSuccess(rep.status) then Err(ApiError(rep.status, rep.body))
      else match parse(rep.body)
        case None => Err(ParseFailed)
        case Some(blocks) => Ok(blocks)
  }
}
