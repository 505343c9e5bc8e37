# Weather agent tool-calling orchestration, modelled in Dafny

The service answers `POST /agents/weather` with `{ prompt }`. It forwards the
prompt to a chat-completion model together with a list of tools. It looks only at
the first tool call of the model's reply. If that call is a function call, it runs
the matching local mock executor (if there is one) and appends the result to the
conversation. It then asks the model a second time for the final
`WeatherResponse`. If the first tool call is missing or is not a function call,
the request fails, even when a later entry is a function call. This project
models that orchestration in its two variants:

- the two-tool handler (`get_weather` and `return_error`), module `AgentsManual`;
- the one-tool handler (`get_weather` only), module `Agents`.

It also models the two local executors (`Utils`) and the three zod schemas
(`Schemas`). The provider is not called: each handler method takes the message
of the first choice of each provider reply as an input (`None` when there is
none). It returns the HTTP reply, the requests it sent to the provider and the
final conversation. The conversation is a local `seq<Message>` that the method
only ever appends to, as the source's `messages.push` does. Each request records
the conversation as it stood when the request was sent.

Modules:

- `Wrappers`: `Option`.
- `Json`: decoded JSON values. An `undefined` property is an absent key.
- `Schemas`: the typed shapes (`PromptInput`, `Weather`, `WeatherData`,
  `WeatherResponse`, the `Condition` enum). Each has an encoder to JSON and a
  parser from JSON that accepts exactly what the zod schema accepts. Round-trip
  lemmas connect encoders and parsers.
- `Utils`: `GetWeather` and `ReturnError`.
- `Chat`: tool declarations, tool calls, messages and provider requests. Also
  the conversation invariant: every tool message directly follows an assistant
  message that requested the call it answers.
- `Handler`: the HTTP reply, the two fixed failure envelopes, and the
  `content || '{}'` fallback.
- `AgentsManual`, `Agents`: the tool registries, the developer instructions and
  the handlers.

`ReturnError` is a function, so equal arguments give equal envelopes. The model
needs no lemma to state that.

The model follows what the code does in three places where one might expect
otherwise:

- One might expect `success = true` to force a weather record and a null error.
  The response schema (src/schemas/index.ts:12-22) does not enforce this, and
  lemma `SuccessNotTiedToPayload` shows every combination validates.
- Both handlers send `tool_choice: 'auto'` (src/controllers/agents_manual.ts:80,
  src/controllers/agents.ts:59); a tool call is never forced.
- An unknown tool name does not fail the request. The code appends a tool
  message whose content is `undefined` (`None` here) and goes on to the second
  request (src/controllers/agents_manual.ts:101-113, src/controllers/agents.ts:80-90).

## Model

| member | source | states |
|---|---|---|
| `AgentsManual.GetCurrentWeather` | src/controllers/agents_manual.ts:9-142 | The conversation opens with the developer instruction and the prompt verbatim. The first request carries it with the two tools. No first message: 500 with "Something went wrong", nothing appended, no second request. A message without a function call as its first tool call: that message is appended, then 500 with "Could not get reliable weather information" and no second request. The second request happens exactly when the first tool call is a function call. It then sees exactly four messages: developer, user, assistant, tool. The tool message answers the first call's `id`. Its content is the `get_weather` result, the `return_error` result, or undefined for any other name. Later tool calls play no part. No second message: 500 with "Something went wrong". Otherwise the final content (or `{}`) is handed to `JSON.parse` and answered with status 200; content that is not JSON makes the parse throw, which is not modelled. Every non-200 reply is 500 with `success=false`, `weatherData=null` and a non-empty error. The conversation invariant holds throughout. |
| `Agents.GetCurrentWeather` | src/controllers/agents.ts:32-119 | The same protocol with the one-tool list. Only `get_weather` is executed; every other function name appends a tool message with undefined content. The early exits and their envelopes are the same, and so are the four-message conversation of the second request and its `tool_call_id`. |
| `AgentsManual.RegistryMatchesDispatch` | src/controllers/agents_manual.ts:15-46 | A tool name has a local executor exactly when it is advertised. The advertised names are distinct. Each tool takes one required string property and allows no other. |
| `Agents.AdvertisedTools` | src/controllers/agents.ts:14-30 | The tool list holds exactly one tool, `get_weather`, whose only property `city` is required. A name is executed exactly when it is advertised. |
| `Chat.FirstToolCallIgnoresRest` | src/controllers/agents_manual.ts:94 | The selected call is the first entry of `tool_calls`, whatever follows it. |
| `Chat.AnswerFirstCallKeepsInvariant` | src/controllers/agents_manual.ts:92-113 | Appending the assistant reply and then a tool message carrying the first call's `id` keeps every tool message answering a call of the message before it. |
| `Chat.AppendReplyKeepsInvariant` | src/controllers/agents_manual.ts:92 | Appending an assistant reply alone keeps the conversation invariant. |
| `Handler.FinalText` | src/controllers/agents_manual.ts:140 | The text handed to the final parse is never empty. A missing or empty content becomes exactly `{}`; any other content is passed on unchanged. |
| `Handler.FailureEnvelopesConform` | src/controllers/agents_manual.ts:86-139 | Both fixed early-exit envelopes have `success=false`, `weatherData=null` and a non-empty error, and they satisfy the response schema. |
| `Utils.GetWeather` | src/utils/index.ts:4-13 | For a temperature draw in [0, 30) the temperature is in [1, 30]. A condition draw in [0, 6) picks that enum entry; any other falls back to `sunny`. |
| `Utils.GetWeatherIgnoresCity` | src/utils/index.ts:4-10 | The result does not depend on the arguments, so not on `city`. |
| `Utils.GetWeatherConforms` | src/utils/index.ts:6-10 | Every result, written as JSON, satisfies the weather schema and parses back to itself. |
| `Utils.GetWeatherCovers` | src/utils/index.ts:8-9 | Every temperature in [1, 30] with every enum condition comes from some pair of in-range draws. |
| `Utils.ReturnError` | src/utils/index.ts:15-19 | The result is an object with exactly the keys `success` (false) and `weatherData` (null), plus `error` exactly when a `message` argument is present, and then `error` is that message whatever its JSON type. |
| `Utils.ReturnErrorNullMessage` | src/utils/index.ts:15-19 | A `null` message gives exactly `{success:false, weatherData:null, error:null}`, which is a valid response envelope. |
| `Utils.ReturnErrorEnvelope` | src/utils/index.ts:15-19 | With a string message the result is exactly `{success:false, weatherData:null, error:message}`, and it is a valid response envelope. |
| `Utils.ReturnErrorWithoutMessage` | src/utils/index.ts:15-19 | Without a `message` argument the result fails the response schema. |
| `Schemas.ParseCondition` | src/schemas/index.ts:9 | A string is accepted as a condition exactly when it is one of the six enum values. |
| `Schemas.ConditionRoundTrip` | src/schemas/index.ts:9 | A string parses to a condition exactly when it is that condition's name. |
| `Schemas.ConditionTables` | src/utils/index.ts:6 | The executor's condition list and the schema's enum list agree position by position. |
| `Schemas.ParsePrompt` | src/schemas/index.ts:3-5 | An accepted prompt has length at least 1 and is the input's `prompt` string. |
| `Schemas.PromptRoundTrip` | src/schemas/index.ts:3-5 | A prompt object validates exactly when its prompt has length at least 1, and then parses back to itself. |
| `Schemas.ParseWeather` | src/schemas/index.ts:7-10 | An accepted weather fact has a numeric `temperature` and a `condition` naming an enum value, both taken from the input. |
| `Schemas.UnknownConditionRejected` | src/schemas/index.ts:7-10 | A `condition` string outside the enum is rejected, for the weather fact and for the weather record. |
| `Schemas.WeatherRoundTrip` | src/schemas/index.ts:7-10 | Every weather fact encodes to a valid object that parses back to itself. |
| `Schemas.ParseWeatherData` | src/schemas/index.ts:14-19 | An accepted weather record carries every weather-fact field plus a string `remark`. |
| `Schemas.WeatherDataRoundTrip` | src/schemas/index.ts:14-19 | Every weather record encodes to a valid object that parses back to itself. |
| `Schemas.ParseResponse` | src/schemas/index.ts:12-22 | An accepted envelope has a boolean `success`, a `weatherData` that is null or a valid weather record, and an `error` that is null or a string. All three keys must be present. |
| `Schemas.ResponseRoundTrip` | src/schemas/index.ts:12-22 | Every envelope, whatever its combination of fields, encodes to a valid object that parses back to itself. |
| `Schemas.ResponseParseKeepsDeclaredKeys` | src/schemas/index.ts:12-22 | An accepted envelope agrees with the encoding of its parsed value on `success` and `error`. Its `weatherData` is null exactly when the encoding's is, and otherwise parses to the same record: only undeclared keys are dropped. The encoding is accepted again with the same value. |
| `Schemas.SuccessNotTiedToPayload` | src/schemas/index.ts:12-22 | Both values of `success` validate with both payload fields null, and also with a weather record and an error together. |

## Left out

- The OpenAI client, its configuration and the choice of model, which are network and environment reads. Each provider call is an input of the handler: the message of its first choice, or `None`.
- `JSON.parse` of tool arguments and of the final content, and `JSON.stringify` of the tool result. A final content that is not valid JSON makes `JSON.parse` throw (src/controllers/agents_manual.ts:140, src/controllers/agents.ts:117); the error handler then answers instead of the 200 reply, and the model does not capture that path. Arguments are already-decoded objects. Tool content is the JSON value that would be written. The final body is the text handed to the parser. Argument text that is not JSON, or that is `null`, makes `JSON.parse` or the destructuring in the executors throw; that path is not modelled. Any other non-object value (a number, string, boolean or array) behaves like an object without the property, which is the empty map here. The final body is not checked against the response schema, as in the source.
- `zodTextFormat`: the finalization request only records that the `WeatherResponse` schema is the response format.
- JSON numbers are integers; fractional and non-finite temperatures are not modelled.
- `Math.random`: the two draws are integer parameters, the floored values of `random * 30` and `random * 6`.
- Logging with `console.log`, and the `async`/`await` plumbing.
- The agents-SDK handler in `src/controllers/agents_sdk.ts` is not part of this model: it delegates to a library runner that is not visible. Its error tool builds the same envelope as `ReturnError`.
- The HTTP server, routing, body-validation middleware, 404 and error handlers (`src/app.ts`, `src/routes/agentsRouter.ts`). The prompt schema itself is modelled by `Schemas.ParsePrompt`. The handlers take the prompt as given, as the source does.
- Exceptions thrown by the provider, which the error-handling middleware turns into a response.
