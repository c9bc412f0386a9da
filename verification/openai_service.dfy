/**
 * The outcome mapping of the server action in src/service/openai.ts. The SDK
 * call itself is not modelled: its outcome is a parameter.
 */
module OpenAIService {
  import opened Options
  import opened FetchErrors

  /** What the SDK call does: it responds (with `output_text` possibly absent), or it throws. */
  datatype SdkOutcome = SdkResponded(outputText: Option<string>) | SdkThrew(thrown: Thrown)

  /**
   * The provider's resolved value, `string | { error: string }`. The error
   * field is optional so that a caller's handling of an absent field can be stated.
   */
  datatype Response = Text(text: string) | ErrorResponse(error: Option<string>)

  /**
   * getAIResponse: a response becomes its text (empty when absent); a throw is
   * caught and normalised. It never rejects, and an error response always carries a field.
   */
  function GetAIResponse(sdk: SdkOutcome): (r: Response)
    ensures sdk.SdkResponded? <==> r.Text?
    ensures sdk == SdkResponded(None) ==> r == Text("")
    ensures sdk.SdkResponded? && sdk.outputText.Some? ==> r == Text(sdk.outputText.value)
    ensures sdk.SdkThrew? ==> r == ErrorResponse(Some(HandleFetchError(sdk.thrown).error))
  {
    match sdk
    case SdkResponded(outputText) => Text(outputText.GetOr(""))
    case SdkThrew(thrown) => ErrorResponse(Some(HandleFetchError(thrown).error))
  }
}
