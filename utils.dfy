/** The two local tool executors. Each receives the tool call's decoded argument
    object, as the handlers pass it, and picks out its own parameter. */
module Utils {
  import opened Wrappers
  import opened Json
  import opened Schemas

  /** `getWeather`: a mock weather fact. `tempDraw` and `conditionDraw` stand for
      `Math.floor(Math.random() * 30)` and `Math.floor(Math.random() * 6)`; the
      `city` argument is only logged, so `args` does not enter the result. An
      index outside the enum falls back to `sunny`. */
  function GetWeather(args: map<string, Value>, tempDraw: int, conditionDraw: int): (w: Weather)
    ensures 0 <= tempDraw < 30 ==> 1 <= w.temperature <= 30
    ensures 0 <= conditionDraw < |Conditions| ==> w.condition == Conditions[conditionDraw]
    ensures !(0 <= conditionDraw < |Conditions|) ==> w.condition == Sunny
  {
    Weather(tempDraw + 1, if 0 <= conditionDraw < |Conditions| then Conditions[conditionDraw] else Sunny)
  }

  /** The result never depends on the arguments the model supplied. */
  lemma GetWeatherIgnoresCity(args1: map<string, Value>, args2: map<string, Value>, tempDraw: int, conditionDraw: int)
    ensures GetWeather(args1, tempDraw, conditionDraw) == GetWeather(args2, tempDraw, conditionDraw)
  {
  }

  /** Every draw gives a fact that satisfies `weatherSchema` once written as JSON. */
  lemma GetWeatherConforms(args: map<string, Value>, tempDraw: int, conditionDraw: int)
    ensures ParseWeather(WeatherToJson(GetWeather(args, tempDraw, conditionDraw)))
            == Some(GetWeather(args, tempDraw, conditionDraw))
  {
    WeatherRoundTrip(GetWeather(args, tempDraw, conditionDraw));
  }

  /** Conversely, every temperature in [1, 30] and every condition of the enum is
      produced by some pair of draws in range: the mock covers the whole range. */
  lemma GetWeatherCovers(args: map<string, Value>, temperature: int, condition: Condition)
    requires 1 <= temperature <= 30
    ensures exists t, c :: 0 <= t < 30 && 0 <= c < |Conditions| && GetWeather(args, t, c) == Weather(temperature, condition)
  {
    var c := match condition
      case Sunny => 0 case Cloudy => 1 case Rainy => 2
      case Snowy => 3 case Windy => 4 case Stormy => 5;
    assert GetWeather(args, temperature - 1, c) == Weather(temperature, condition);
  }

  /** `returnError`: the error envelope `{ success: false, weatherData: null,
      error: message }` built from the `message` argument. A missing `message`
      leaves `error` undefined, which is an absent key in JSON. */
  function ReturnError(args: map<string, Value>): (r: Value)
    ensures r.JObj? && "success" in r.fields && "weatherData" in r.fields
    ensures r.fields["success"] == JBool(false) && r.fields["weatherData"] == JNull
    ensures "error" in r.fields <==> "message" in args
    ensures "message" in args ==> r.fields["error"] == args["message"]
    ensures r.fields.Keys == {"success", "weatherData"} + (if "message" in args then {"error"} else {})
  {
    JObj(map["success" := JBool(false), "weatherData" := JNull]
         + (if "message" in args then map["error" := args["message"]] else map[]))
  }

  /** With a string `message`, the result is exactly the failure envelope for that
      message, and it satisfies `weatherResponseSchema`. */
  lemma ReturnErrorEnvelope(args: map<string, Value>, message: string)
    requires "message" in args && args["message"] == JStr(message)
    ensures ReturnError(args) == ResponseToJson(WeatherResponse(false, None, Some(message)))
    ensures ParseResponse(ReturnError(args)) == Some(WeatherResponse(false, None, Some(message)))
  {
    ResponseRoundTrip(WeatherResponse(false, None, Some(message)));
  }

  /** A `null` message gives `error: null`, which the response schema accepts. */
  lemma ReturnErrorNullMessage(args: map<string, Value>)
    requires "message" in args && args["message"] == JNull
    ensures ReturnError(args) == ResponseToJson(WeatherResponse(false, None, None))
    ensures ParseResponse(ReturnError(args)) == Some(WeatherResponse(false, None, None))
  {
    ResponseRoundTrip(WeatherResponse(false, None, None));
  }

  /** Without a `message` argument the envelope lacks `error` and the response
      schema rejects it. */
  lemma ReturnErrorWithoutMessage(args: map<string, Value>)
    requires "message" !in args
    ensures ParseResponse(ReturnError(args)) == None
  {
  }
}
