/** The chat-completion vocabulary the handlers exchange with the model provider:
    tool declarations, tool calls, messages and the two kinds of request. The
    provider itself is not modelled; its replies are inputs of the handlers. */
module Chat {
  import opened Wrappers
  import opened Json

  /** One entry of the `tools` list: a function tool whose parameters form an
      object of string properties. */
  datatype ToolDefinition = ToolDefinition(
    name: string,
    description: string,
    properties: seq<string>,
    required: seq<string>,
    additionalProperties: bool)

  /** An entry of an assistant message's `tool_calls`. A function call carries the
      tool name and its already-decoded arguments; a custom tool call is the other
      kind the provider may return. */
  datatype ToolCall =
    | FunctionCall(id: string, name: string, arguments: map<string, Value>)
    | CustomCall(id: string, input: string)

  /** The message of `choices[0]`; `toolCalls` is `None` when `tool_calls` is absent. */
  datatype AssistantMessage = AssistantMessage(content: Option<string>, toolCalls: Option<seq<ToolCall>>)

  /** The role-tagged entries of the running conversation. A tool message's
      content is the value `JSON.stringify` writes, `None` for `undefined`. */
  datatype Message =
    | Developer(text: string)
    | User(text: string)
    | Assistant(reply: AssistantMessage)
    | Tool(toolCallId: string, content: Option<Value>)

  /** The two provider calls: tool selection (with the tool list and
      `tool_choice: 'auto'`) and finalization (with the `WeatherResponse` JSON
      schema as response format). */
  datatype Request =
    | ToolSelection(messages: seq<Message>, tools: seq<ToolDefinition>)
    | Finalization(messages: seq<Message>)

  /** `assistantMessage.tool_calls?.[0]`. */
  function FirstToolCall(m: AssistantMessage): Option<ToolCall>
  {
    if m.toolCalls.Some? && |m.toolCalls.value| > 0 then Some(m.toolCalls.value[0]) else None
  }

  /** `toolCall && toolCall.type === 'function'`. */
  predicate CallsFunction(m: AssistantMessage)
  {
    FirstToolCall(m).Some? && FirstToolCall(m).value.FunctionCall?
  }

  /** Calls after the first one never change which call is honoured. */
  lemma {:induction false} FirstToolCallIgnoresRest(content: Option<string>, call: ToolCall, rest1: seq<ToolCall>, rest2: seq<ToolCall>)
    ensures FirstToolCall(AssistantMessage(content, Some([call] + rest1)))
            == FirstToolCall(AssistantMessage(content, Some([call] + rest2)))
            == Some(call)
  {
  }

  /** The reply requested a tool call with identifier `id`. */
  predicate Requested(m: AssistantMessage, id: string)
  {
    m.toolCalls.Some? && exists k :: 0 <= k < |m.toolCalls.value| && m.toolCalls.value[k].id == id
  }

  /** The conversation invariant: every tool message directly follows an assistant
      message that requested a call with the identifier it answers. */
  predicate ToolRepliesAnswerCalls(messages: seq<Message>)
  {
    forall i :: 0 <= i < |messages| && messages[i].Tool? ==>
      0 < i && messages[i - 1].Assistant? && Requested(messages[i - 1].reply, messages[i].toolCallId)
  }

  /** Appending an assistant reply, then a tool message answering the reply's
      first call, keeps the invariant. */
  lemma {:induction false} AnswerFirstCallKeepsInvariant(messages: seq<Message>, reply: AssistantMessage, content: Option<Value>)
    requires ToolRepliesAnswerCalls(messages)
    requires FirstToolCall(reply).Some?
    ensures ToolRepliesAnswerCalls(messages + [Assistant(reply), Tool(FirstToolCall(reply).value.id, content)])
  {
    var all := messages + [Assistant(reply), Tool(FirstToolCall(reply).value.id, content)];
    assert reply.toolCalls.value[0].id == FirstToolCall(reply).value.id;
    forall i | 0 <= i < |all| && all[i].Tool?
      ensures 0 < i && all[i - 1].Assistant? && Requested(all[i - 1].reply, all[i].toolCallId)
    {
      if i < |messages| {
        assert all[i] == messages[i];
        assert all[i - 1] == messages[i - 1];
      } else {
        assert i == |messages| + 1;
      }
    }
  }

  /** Appending an assistant reply alone keeps the invariant. */
  lemma AppendReplyKeepsInvariant(messages: seq<Message>, reply: AssistantMessage)
    requires ToolRepliesAnswerCalls(messages)
    ensures ToolRepliesAnswerCalls(messages + [Assistant(reply)])
  {
    var all := messages + [Assistant(reply)];
    forall i | 0 <= i < |all| && all[i].Tool?
      ensures 0 < i && all[i - 1].Assistant? && Requested(all[i - 1].reply, all[i].toolCallId)
    {
      assert all[i] == messages[i];
      assert all[i - 1] == messages[i - 1];
    }
  }
}
