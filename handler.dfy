/** What both request handlers send back: an HTTP status with either one of the
    fixed failure envelopes or the final model reply passed through. */
module Handler {
  import opened Wrappers
  import opened Schemas

  datatype Body =
    | Envelope(response: WeatherResponse)
      /** The text handed to `JSON.parse` before `res.json`; decoding it is not modelled. */
    | Passthrough(text: string)

  datatype Reply = Reply(status: nat, body: Body)

  const GenericFailure: WeatherResponse := WeatherResponse(false, None, Some("Something went wrong"))

  const UnreliableFailure: WeatherResponse := WeatherResponse(false, None, Some("Could not get reliable weather information"))

  /** An early exit's envelope: no success, no weather data, a non-empty error. */
  predicate IsFailureEnvelope(r: WeatherResponse)
  {
    !r.success && r.weatherData.None? && r.error.Some? && |r.error.value| > 0
  }

  /** `finalAssistantMessage.content || '{}'`: a missing or empty content becomes `{}`. */
  function FinalText(content: Option<string>): (text: string)
    ensures |text| > 0
    ensures content.Some? && content.value != "" ==> text == content.value
    ensures content.None? || content.value == "" ==> text == "{}"
  {
    match content
    case Some(s) => if s == "" then "{}" else s
    case None => "{}"
  }

  /** Both fixed envelopes are failure envelopes and satisfy `weatherResponseSchema`. */
  lemma FailureEnvelopesConform()
    ensures IsFailureEnvelope(GenericFailure) && IsFailureEnvelope(UnreliableFailure)
    ensures ParseResponse(ResponseToJson(GenericFailure)) == Some(GenericFailure)
    ensures ParseResponse(ResponseToJson(UnreliableFailure)) == Some(UnreliableFailure)
  {
    ResponseRoundTrip(GenericFailure);
    ResponseRoundTrip(UnreliableFailure);
  }
}
