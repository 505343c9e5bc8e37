/** The single-tool weather handler: only `get_weather` is advertised and
    executed; the model is told to decline other questions without a tool call,
    and a reply without a function call ends the request with a failure. */
module Agents {
  import opened Wrappers
  import opened Json
  import opened Schemas
  import opened Utils
  import opened Chat
  import opened Handler

  /** The developer instruction that opens every conversation. */
  const Instructions: string :=
    "You are a strict weather assistant. Only respond to messages about weather. "
    + "If the user asks about the weather in a city, call the \"get_weather\" tool. "
    + "Use the \"remark\" field in the output for any tips or insight based on the conditions and temperature "
    + "For anything else, do not call any tool and reply with \"I can only provide weather information.\""

  /** The module-level tool list. */
  const Tools: seq<ToolDefinition> := [
    ToolDefinition("get_weather", "Get current temperature for a given location.", ["city"], ["city"], false)
  ]

  /** The advertised list holds exactly one tool, `get_weather`, whose only
      parameter `city` is required; a name has an executor exactly when it is
      advertised. */
  lemma AdvertisedTools(name: string)
    ensures |Tools| == 1 && Tools[0].name == "get_weather"
    ensures Tools[0].properties == ["city"] && Tools[0].required == ["city"] && !Tools[0].additionalProperties
    ensures name == "get_weather" <==> exists i :: 0 <= i < |Tools| && Tools[i].name == name
  {
    if name == "get_weather" {
      assert Tools[0].name == name;
    }
  }

  /** `getCurrentWeather`, with the same inputs and outputs as the two-tool
      handler. */
  method GetCurrentWeather(prompt: string, first: Option<AssistantMessage>, second: Option<AssistantMessage>,
                           tempDraw: int, conditionDraw: int)
    returns (reply: Reply, requests: seq<Request>, messages: seq<Message>)
    ensures 2 <= |messages| && messages[..2] == [Developer(Instructions), User(prompt)]
    ensures 1 <= |requests| <= 2 && requests[0] == ToolSelection(messages[..2], Tools)
    ensures ToolRepliesAnswerCalls(messages)
    // No first reply: generic failure, nothing appended, no second request.
    ensures first.None? ==> reply == Reply(500, Envelope(GenericFailure)) && |requests| == 1 && |messages| == 2
    // A reply without a function call (the instructed way to decline) ends in failure.
    ensures first.Some? && !CallsFunction(first.value) ==>
      reply == Reply(500, Envelope(UnreliableFailure)) && |requests| == 1 && messages == messages[..2] + [Assistant(first.value)]
    ensures |requests| == 2 <==> first.Some? && CallsFunction(first.value)
    ensures |requests| == 2 ==>
      && requests[1] == Finalization(messages)
      && |messages| == 4
      && messages[2] == Assistant(first.value)
      && messages[3].Tool?
      && messages[3].toolCallId == FirstToolCall(first.value).value.id
    // Only `get_weather` is executed; any other name yields `undefined`.
    ensures |requests| == 2 ==>
      var call := FirstToolCall(first.value).value;
      && (call.name == "get_weather" ==>
            messages[3].content == Some(WeatherToJson(GetWeather(call.arguments, tempDraw, conditionDraw))))
      && (call.name != "get_weather" ==> messages[3].content == None)
    ensures |requests| == 2 && second.None? ==> reply == Reply(500, Envelope(GenericFailure))
    ensures |requests| == 2 && second.Some? ==> reply == Reply(200, Passthrough(FinalText(second.value.content)))
    ensures reply.status != 200 ==> reply.status == 500 && reply.body.Envelope? && IsFailureEnvelope(reply.body.response)
  {
    messages := [Developer(Instructions), User(prompt)];
    requests := [ToolSelection(messages, Tools)];
    if first.None? {
      reply := Reply(500, Envelope(GenericFailure));
      return;
    }
    var assistantMessage := first.value;
    AppendReplyKeepsInvariant(messages, assistantMessage);
    messages := messages + [Assistant(assistantMessage)];
    var toolCall := FirstToolCall(assistantMessage);
    if toolCall.Some? && toolCall.value.FunctionCall? {
      var functionName := toolCall.value.name;
      var functionArgs := toolCall.value.arguments;
      var result: Option<Value> := None;
      if functionName == "get_weather" {
        result := Some(WeatherToJson(GetWeather(functionArgs, tempDraw, conditionDraw)));
      }
      AnswerFirstCallKeepsInvariant(messages[..2], assistantMessage, result);
      messages := messages + [Tool(toolCall.value.id, result)];
    } else {
      reply := Reply(500, Envelope(UnreliableFailure));
      return;
    }
    requests := requests + [Finalization(messages)];
    if second.None? {
      reply := Reply(500, Envelope(GenericFailure));
      return;
    }
    reply := Reply(200, Passthrough(FinalText(second.value.content)));
  }
}
