/** The three zod schemas of the service: the prompt input, the weather fact and
    the weather response envelope. Each schema is modelled twice: as a typed
    datatype (what `z.infer` gives) with an encoder to JSON, and as a parser from
    a decoded JSON value that succeeds exactly when zod's `safeParse` does.
    A zod object keeps the keys it declares and drops unknown ones. */
module Schemas {
  import opened Wrappers
  import opened Json

  /** The six values of the `condition` enum. */
  datatype Condition = Sunny | Cloudy | Rainy | Snowy | Windy | Stormy

  /** The enum in declaration order; `getWeather` indexes into it. */
  const Conditions: seq<Condition> := [Sunny, Cloudy, Rainy, Snowy, Windy, Stormy]

  /** The enum's literal strings, in the same order. */
  const ConditionNames: seq<string> := ["sunny", "cloudy", "rainy", "snowy", "windy", "stormy"]

  function ConditionName(c: Condition): string
  {
    match c
    case Sunny => "sunny"
    case Cloudy => "cloudy"
    case Rainy => "rainy"
    case Snowy => "snowy"
    case Windy => "windy"
    case Stormy => "stormy"
  }

  /** `z.enum([...])` applied to a string. */
  function ParseCondition(s: string): (r: Option<Condition>)
    ensures r.Some? <==> s in ConditionNames
  {
    if s == "sunny" then Some(Sunny)
    else if s == "cloudy" then Some(Cloudy)
    else if s == "rainy" then Some(Rainy)
    else if s == "snowy" then Some(Snowy)
    else if s == "windy" then Some(Windy)
    else if s == "stormy" then Some(Stormy)
    else None
  }

  /** The enum's string for a condition parses back to that condition, and a
      string parses to a condition only if it is that condition's name. */
  lemma {:induction false} ConditionRoundTrip(s: string, c: Condition)
    ensures ParseCondition(s) == Some(c) <==> ConditionName(c) == s
  {
    match c
    case Sunny =>
    case Cloudy =>
    case Rainy =>
    case Snowy =>
    case Windy =>
    case Stormy =>
  }

  /** `Conditions` and `ConditionNames` list the same enum, position by position. */
  lemma ConditionTables(i: nat)
    requires i < |Conditions|
    ensures |ConditionNames| == |Conditions| && ConditionName(Conditions[i]) == ConditionNames[i]
  {
  }

  // ---------------------------------------------------------------------------
  // Typed shapes

  /** `weatherPromptSchema`: the request body. */
  datatype PromptInput = PromptInput(prompt: string)

  /** `weatherSchema`: what the `get_weather` tool returns. */
  datatype Weather = Weather(temperature: int, condition: Condition)

  /** `weatherSchema` merged with `{ remark: string }`. */
  datatype WeatherData = WeatherData(temperature: int, condition: Condition, remark: string)

  /** `weatherResponseSchema`: the envelope sent to every client. */
  datatype WeatherResponse = WeatherResponse(success: bool, weatherData: Option<WeatherData>, error: Option<string>)

  // ---------------------------------------------------------------------------
  // Encoders: the JSON object each typed value is written as

  function PromptToJson(p: PromptInput): Value
  {
    JObj(map["prompt" := JStr(p.prompt)])
  }

  function WeatherToJson(w: Weather): Value
  {
    JObj(map["temperature" := JNum(w.temperature), "condition" := JStr(ConditionName(w.condition))])
  }

  function WeatherDataToJson(d: WeatherData): Value
  {
    JObj(map["temperature" := JNum(d.temperature),
             "condition" := JStr(ConditionName(d.condition)),
             "remark" := JStr(d.remark)])
  }

  function ResponseToJson(r: WeatherResponse): Value
  {
    JObj(map["success" := JBool(r.success),
             "weatherData" := (match r.weatherData case None => JNull case Some(d) => WeatherDataToJson(d)),
             "error" := (match r.error case None => JNull case Some(e) => JStr(e))])
  }

  // ---------------------------------------------------------------------------
  // Parsers: zod's `safeParse` for each schema

  /** `z.object({ prompt: z.string().min(1) })`. */
  function ParsePrompt(v: Value): (r: Option<PromptInput>)
    ensures r.Some? ==> |r.value.prompt| >= 1
    ensures r.Some? ==> v.JObj? && "prompt" in v.fields && v.fields["prompt"] == JStr(r.value.prompt)
  {
    match v
    case JObj(f) =>
      if "prompt" in f && f["prompt"].JStr? && |f["prompt"].s| >= 1 then Some(PromptInput(f["prompt"].s)) else None
    case _ => None
  }

  /** `z.object({ temperature: z.number(), condition: z.enum([...]) })`. */
  function ParseWeather(v: Value): (r: Option<Weather>)
    ensures r.Some? ==> v.JObj? && "temperature" in v.fields && "condition" in v.fields
    ensures r.Some? ==> v.fields["temperature"] == JNum(r.value.temperature)
    ensures r.Some? ==> v.fields["condition"] == JStr(ConditionName(r.value.condition))
  {
    match v
    case JObj(f) =>
      if "temperature" in f && f["temperature"].JNum? && "condition" in f && f["condition"].JStr? then
        match ParseCondition(f["condition"].s)
        case Some(c) =>
          ConditionRoundTrip(f["condition"].s, c);
          Some(Weather(f["temperature"].n, c))
        case None => None
      else None
    case _ => None
  }

  /** `weatherSchema.merge(z.object({ remark: z.string() }))`. */
  function ParseWeatherData(v: Value): (r: Option<WeatherData>)
    ensures r.Some? ==> v.JObj? && "remark" in v.fields && v.fields["remark"] == JStr(r.value.remark)
    ensures r.Some? ==> ParseWeather(v) == Some(Weather(r.value.temperature, r.value.condition))
  {
    match ParseWeather(v)
    case Some(w) =>
      if "remark" in v.fields && v.fields["remark"].JStr? then
        Some(WeatherData(w.temperature, w.condition, v.fields["remark"].s))
      else None
    case None => None
  }

  /** `weatherResponseSchema`: a boolean `success`, a nullable weather record and
      a nullable string `error`, each key present. */
  function ParseResponse(v: Value): (r: Option<WeatherResponse>)
    ensures r.Some? ==> v.JObj? && "success" in v.fields && "weatherData" in v.fields && "error" in v.fields
    ensures r.Some? ==> v.fields["success"] == JBool(r.value.success)
    ensures r.Some? ==> (r.value.weatherData.None? <==> v.fields["weatherData"] == JNull)
    ensures r.Some? && r.value.weatherData.Some? ==> ParseWeatherData(v.fields["weatherData"]) == r.value.weatherData
    ensures r.Some? ==> v.fields["error"] == (match r.value.error case None => JNull case Some(e) => JStr(e))
  {
    match v
    case JObj(f) =>
      if "success" in f && f["success"].JBool? && "weatherData" in f && "error" in f then
        var data := f["weatherData"];
        var err := f["error"];
        if !(err.JNull? || err.JStr?) then None
        else
          var error := if err.JNull? then None else Some(err.s);
          if data.JNull? then Some(WeatherResponse(f["success"].b, None, error))
          else
            match ParseWeatherData(data)
            case Some(d) => Some(WeatherResponse(f["success"].b, Some(d), error))
            case None => None
      else None
    case _ => None
  }

  // ---------------------------------------------------------------------------
  // Round trips between the typed shapes and the schemas

  /** A prompt survives encoding exactly when it meets `min(1)`. */
  lemma PromptRoundTrip(p: PromptInput)
    ensures ParsePrompt(PromptToJson(p)) == (if |p.prompt| >= 1 then Some(p) else None)
  {
  }

  /** Every weather fact is written as a schema-valid object and read back unchanged. */
  lemma WeatherRoundTrip(w: Weather)
    ensures ParseWeather(WeatherToJson(w)) == Some(w)
  {
    ConditionRoundTrip(ConditionName(w.condition), w.condition);
  }

  lemma WeatherDataRoundTrip(d: WeatherData)
    ensures ParseWeatherData(WeatherDataToJson(d)) == Some(d)
  {
    ConditionRoundTrip(ConditionName(d.condition), d.condition);
  }

  /** Every envelope, whatever combination of `success`, `weatherData` and
      `error` it holds, is schema-valid once written and reads back unchanged. */
  lemma ResponseRoundTrip(r: WeatherResponse)
    ensures ParseResponse(ResponseToJson(r)) == Some(r)
  {
    if r.weatherData.Some? {
      WeatherDataRoundTrip(r.weatherData.value);
    }
  }

  /** An accepted envelope agrees with the encoding of its parsed value on every
      declared key: `success` and `error` are equal, `weatherData` is null in both
      or in neither, and a weather record differs at most in keys the schema does
      not declare, so both records parse to the same value. The encoding is
      accepted again with the same value. */
  lemma ResponseParseKeepsDeclaredKeys(v: Value, r: WeatherResponse)
    requires ParseResponse(v) == Some(r)
    ensures v.JObj? && "success" in v.fields && "weatherData" in v.fields && "error" in v.fields
    ensures var e := ResponseToJson(r).fields;
      && v.fields["success"] == e["success"]
      && v.fields["error"] == e["error"]
      && (v.fields["weatherData"] == JNull <==> e["weatherData"] == JNull)
      && ParseWeatherData(v.fields["weatherData"]) == ParseWeatherData(e["weatherData"])
    ensures ParseResponse(ResponseToJson(r)) == Some(r)
  {
    ResponseRoundTrip(r);
    if r.weatherData.Some? {
      WeatherDataRoundTrip(r.weatherData.value);
    }
  }

  /** The schema does not tie `success` to which of `weatherData` and `error` is
      null: both values of `success` validate with both fields null, and with a
      weather record and an error message at once. */
  lemma SuccessNotTiedToPayload(success: bool, d: WeatherData, e: string)
    ensures ParseResponse(JObj(map["success" := JBool(success), "weatherData" := JNull, "error" := JNull]))
            == Some(WeatherResponse(success, None, None))
    ensures ParseResponse(ResponseToJson(WeatherResponse(success, Some(d), Some(e))))
            == Some(WeatherResponse(success, Some(d), Some(e)))
  {
    ResponseRoundTrip(WeatherResponse(success, Some(d), Some(e)));
  }

  /** A weather record whose `condition` is a string outside the enum is rejected,
      and so is an envelope that carries it. */
  lemma UnknownConditionRejected(v: Value)
    requires v.JObj? && "condition" in v.fields && v.fields["condition"].JStr?
    requires v.fields["condition"].s !in ConditionNames
    ensures ParseWeather(v) == None && ParseWeatherData(v) == None
  {
  }
}
