/** The two-tool weather handler: the model is told to answer by calling
    `get_weather` or `return_error`; only the first tool call is examined, and if
    it is a function call with a known name its executor runs locally. A second
    request then turns the tool message into the final answer. */
module AgentsManual {
  import opened Wrappers
  import opened Json
  import opened Schemas
  import opened Utils
  import opened Chat
  import opened Handler

  /** The developer instruction that opens every conversation. */
  const Instructions: string :=
    "You are a strict weather assistant.\n"
    + "      • If the user asks for the weather in a city, CALL the \"get_weather\" tool\n"
    + "      with the city's name.\n"
    + "      • Otherwise CALL the \"return_error\" tool with a short message like \"Sorry, I can only answer weather questions.\"\n"
    + "      Respond ONLY by calling one of those two tools."

  /** The tool list advertised to the model. */
  const Tools: seq<ToolDefinition> := [
    ToolDefinition("get_weather", "Get current temperature for a given location.", ["city"], ["city"], false),
    ToolDefinition("return_error", "Return an error when the user asks something that is NOT about the weather.",
                   ["message"], ["message"], false)
  ]

  /** The tool names the handler has a local executor for. */
  predicate Dispatched(name: string)
  {
    name == "get_weather" || name == "return_error"
  }

  /** The registry and the dispatch agree: every advertised tool has an executor,
      every executor is advertised under exactly one entry, and every tool takes one
      required string parameter with no other properties allowed. */
  lemma RegistryMatchesDispatch(name: string)
    ensures Dispatched(name) <==> exists i :: 0 <= i < |Tools| && Tools[i].name == name
    ensures forall i, j :: 0 <= i < j < |Tools| ==> Tools[i].name != Tools[j].name
    ensures forall i :: 0 <= i < |Tools| ==>
      |Tools[i].properties| == 1 && Tools[i].required == Tools[i].properties && !Tools[i].additionalProperties
  {
    if name == "get_weather" {
      assert Tools[0].name == name;
    } else if name == "return_error" {
      assert Tools[1].name == name;
    }
  }

  /** `getCurrentWeather`. `first` and `second` are the messages of the first
      choice of the two provider replies (`None` when there is none); the draws
      feed `getWeather`. Returns the HTTP reply, the requests sent to the provider
      (each with the conversation as it stood when sent) and the final
      conversation. */
  method GetCurrentWeather(prompt: string, first: Option<AssistantMessage>, second: Option<AssistantMessage>,
                           tempDraw: int, conditionDraw: int)
    returns (reply: Reply, requests: seq<Request>, messages: seq<Message>)
    // The conversation opens with the instruction and the prompt verbatim, is only
    // ever appended to, and the tool-selection request carries the two tools.
    ensures 2 <= |messages| && messages[..2] == [Developer(Instructions), User(prompt)]
    ensures 1 <= |requests| <= 2 && requests[0] == ToolSelection(messages[..2], Tools)
    ensures ToolRepliesAnswerCalls(messages)
    // No first reply: generic failure, nothing appended, no second request.
    ensures first.None? ==> reply == Reply(500, Envelope(GenericFailure)) && |requests| == 1 && |messages| == 2
    // A reply without a function call: it is appended, then the handler gives up.
    ensures first.Some? && !CallsFunction(first.value) ==>
      reply == Reply(500, Envelope(UnreliableFailure)) && |requests| == 1 && messages == messages[..2] + [Assistant(first.value)]
    // The finalization request is made exactly when the first reply calls a function.
    ensures |requests| == 2 <==> first.Some? && CallsFunction(first.value)
    ensures |requests| == 2 ==>
      && requests[1] == Finalization(messages)
      && |messages| == 4
      && messages[2] == Assistant(first.value)
      && messages[3].Tool?
      && messages[3].toolCallId == FirstToolCall(first.value).value.id
    // Only the first call is executed, by name; an unknown name yields `undefined`.
    ensures |requests| == 2 ==>
      var call := FirstToolCall(first.value).value;
      && (call.name == "get_weather" ==>
            messages[3].content == Some(WeatherToJson(GetWeather(call.arguments, tempDraw, conditionDraw))))
      && (call.name == "return_error" ==> messages[3].content == Some(ReturnError(call.arguments)))
      && (messages[3].content.Some? <==> Dispatched(call.name))
    // The second reply decides the outcome once it has been requested.
    ensures |requests| == 2 && second.None? ==> reply == Reply(500, Envelope(GenericFailure))
    ensures |requests| == 2 && second.Some? ==> reply == Reply(200, Passthrough(FinalText(second.value.content)))
    // Every early exit answers 500 with a failure envelope.
    ensures reply.status != 200 ==> reply.status == 500 && reply.body.Envelope? && IsFailureEnvelope(reply.body.response)
  {
    messages := [Developer(Instructions), User(prompt)];
    requests := [ToolSelection(messages, Tools)];
    if first.None? {
      reply := Reply(500, Envelope(GenericFailure));
      return;
    }
    var assistantMessage := first.value;
    AppendReplyKeepsInvariant(messages, assistantMessage);
    messages := messages + [Assistant(assistantMessage)];
    var toolCall := FirstToolCall(assistantMessage);
    if toolCall.Some? && toolCall.value.FunctionCall? {
      var functionName := toolCall.value.name;
      var functionArgs := toolCall.value.arguments;
      var result: Option<Value> := None;
      if functionName == "get_weather" {
        result := Some(WeatherToJson(GetWeather(functionArgs, tempDraw, conditionDraw)));
      } else if functionName == "return_error" {
        result := Some(ReturnError(functionArgs));
      }
      AnswerFirstCallKeepsInvariant(messages[..2], assistantMessage, result);
      messages := messages + [Tool(toolCall.value.id, result)];
    } else {
      reply := Reply(500, Envelope(UnreliableFailure));
      return;
    }
    requests := requests + [Finalization(messages)];
    if second.None? {
      reply := Reply(500, Envelope(GenericFailure));
      return;
    }
    reply := Reply(200, Passthrough(FinalText(second.value.content)));
  }
}
