/**
 * The generation controller of src/hooks/useOpenAI.ts: `loading`, `error` and
 * `data` around one call to the text-generation provider. `generate` is split
 * at its only suspension point into `Begin` (before the provider is awaited)
 * and `Settle` (once the provider's outcome is known).
 */
module Generation {
  import opened Options
  import opened FetchErrors
  import opened OpenAIService

  /** A JavaScript `Error`, known by its message. */
  datatype Error = Error(message: string)

  /** How the awaited provider call ends: it resolves with a response, or it rejects. */
  datatype ProviderOutcome = Resolved(response: Response) | Rejected(thrown: Thrown)

  /** How `generate` ends for its caller: it returns the text, or it throws an error. */
  datatype Settlement = Returned(text: string) | Raised(error: Error)

  /** Stored when the provider answers with an error object whose message is empty or absent. */
  const PROVIDER_FALLBACK: string := "Error desconocido al obtener la respuesta de OpenAI"
  /** Stored when the rejection is not an `Error`. */
  const UNEXPECTED_MESSAGE: string := "Error inesperado"

  /** The error that an error response becomes; `||` treats the empty string like an absent one. */
  function ResponseError(error: Option<string>): (e: Error)
    ensures e.message != ""
    ensures error.Some? && error.value != "" ==> e.message == error.value
    ensures error.None? || error.value == "" ==> e.message == PROVIDER_FALLBACK
  {
    if error.Some? && error.value != "" then Error(error.value) else Error(PROVIDER_FALLBACK)
  }

  /**
   * The outcome of `generate` for a given provider outcome: a text response is
   * returned; everything else is normalised into one error, which is raised.
   */
  function SettlementOf(outcome: ProviderOutcome): (r: Settlement)
    ensures r.Returned? <==> outcome.Resolved? && outcome.response.Text?
    ensures r.Returned? ==> r.text == outcome.response.text
    ensures outcome.Resolved? && outcome.response.ErrorResponse? ==> r == Raised(ResponseError(outcome.response.error))
    ensures outcome.Resolved? && r.Raised? ==> r.error.message != ""
    ensures outcome.Rejected? && outcome.thrown.ThrownError? ==> r == Raised(Error(outcome.thrown.message))
    ensures outcome == Rejected(ThrownOther) ==> r == Raised(Error(UNEXPECTED_MESSAGE))
  {
    match outcome
    case Resolved(Text(text)) => Returned(text)
    case Resolved(ErrorResponse(error)) => Raised(ResponseError(error))
    case Rejected(ThrownError(message)) => Raised(Error(message))
    case Rejected(ThrownOther) => Raised(Error(UNEXPECTED_MESSAGE))
  }

  /** The controller's observable state, as a value. */
  datatype State = State(loading: bool, error: Option<Error>, data: Option<string>)

  /** The state on mount. */
  const Initial: State := State(false, None, None)

  /** The state once `generate` has started: loading, nothing stale visible. */
  function Begun(s: State): (t: State)
    ensures t.loading && t.error.None? && t.data.None?
  {
    State(true, None, None)
  }

  /**
   * The state once the provider has settled: a returned text is stored as
   * `data`, a raised error as `error`; the other field is left as it was, and
   * `loading` is cleared on both paths.
   */
  function Settled(s: State, outcome: ProviderOutcome): (t: State)
    ensures !t.loading
    ensures SettlementOf(outcome).Returned? ==> t.data == Some(SettlementOf(outcome).text) && t.error == s.error
    ensures SettlementOf(outcome).Raised? ==> t.error == Some(SettlementOf(outcome).error) && t.data == s.data
  {
    match SettlementOf(outcome)
    case Returned(text) => State(false, s.error, Some(text))
    case Raised(error) => State(false, Some(error), s.data)
  }

  /**
   * One whole `generate` call, not overlapped by another: afterwards loading
   * is off and exactly one of `data` and `error` is set, holding what the call
   * returned or raised.
   */
  lemma GenerateSettles(s: State, outcome: ProviderOutcome)
    ensures var t := Settled(Begun(s), outcome);
            !t.loading &&
            (t.data.Some? <==> t.error.None?) &&
            (t.data.Some? <==> SettlementOf(outcome).Returned?) &&
            (SettlementOf(outcome).Returned? ==> t.data.value == SettlementOf(outcome).text) &&
            (SettlementOf(outcome).Raised? ==> t.error.value == SettlementOf(outcome).error)
  {
  }

  /**
   * End to end: a failure of the SDK call is caught by the service, normalised,
   * and becomes the controller's stored error; its message is the normalised
   * message, or the provider fallback when that message is empty.
   */
  lemma SdkFailureStoredMessage(s: State, thrown: Thrown)
    ensures var t := Settled(Begun(s), Resolved(GetAIResponse(SdkThrew(thrown))));
            t.data.None? && t.error.Some? &&
            t.error.value.message == (if HandleFetchError(thrown).error == "" then PROVIDER_FALLBACK
                                      else HandleFetchError(thrown).error) &&
            t.error.value.message != FETCH_FAILED
  {
  }

  /** End to end: a connectivity failure of the SDK ends as the dedicated connectivity message. */
  lemma ConnectivityFailureStored(s: State)
    ensures Settled(Begun(s), Resolved(GetAIResponse(SdkThrew(ThrownError(FETCH_FAILED))))).error
            == Some(Error(CONNECTION_MESSAGE))
  {
  }

  /**
   * End to end: when the SDK responds, its text (empty when absent) becomes
   * `data` and is returned, and no error is stored.
   */
  lemma SdkResponseStored(s: State, outputText: Option<string>)
    ensures var t := Settled(Begun(s), Resolved(GetAIResponse(SdkResponded(outputText))));
            t == State(false, None, Some(outputText.GetOr(""))) &&
            SettlementOf(Resolved(GetAIResponse(SdkResponded(outputText)))) == Returned(outputText.GetOr(""))
  {
  }

  /**
   * Settlement carries no request token: when two calls overlap, one ending
   * with a text and the other with an error, both a text and an error end up
   * stored, whichever of the two settles first.
   */
  lemma OverlappingSettlementsMix(s: State, text: string, thrown: Thrown)
    ensures var pending := Begun(Begun(s));
            var error := SettlementOf(Rejected(thrown)).error;
            Settled(Settled(pending, Rejected(thrown)), Resolved(Text(text))) == State(false, Some(error), Some(text)) &&
            Settled(Settled(pending, Resolved(Text(text))), Rejected(thrown)) == State(false, Some(error), Some(text))
  {
  }

  /** The controller object returned by the hook. */
  class Controller {
    var loading: bool
    var error: Option<Error>
    var data: Option<string>

    /** The fields, read as a value. */
    function Current(): State
      reads this
    {
      State(loading, error, data)
    }

    /** On mount: not loading, no error, no data. */
    constructor ()
      ensures Current() == Initial
    {
      loading, error, data := false, None, None;
    }

    /** The synchronous start of `generate`, before the provider is awaited. */
    method Begin()
      modifies this
      ensures Current() == Begun(old(Current()))
      ensures loading && error == None && data == None
    {
      loading := true;
      error := None;
      data := None;
    }

    /**
     * The rest of `generate`, once the provider has settled: store the text or
     * the normalised error, clear `loading` in either case, and hand the
     * caller the same text or the same error.
     */
    method Settle(outcome: ProviderOutcome) returns (r: Settlement)
      modifies this
      ensures r == SettlementOf(outcome)
      ensures Current() == Settled(old(Current()), outcome)
      ensures !loading
    {
      match outcome {
        case Resolved(Text(text)) =>
          data := Some(text);
          r := Returned(text);
        case Resolved(ErrorResponse(message)) =>
          var e := ResponseError(message);
          error := Some(e);
          r := Raised(e);
        case Rejected(ThrownError(message)) =>
          var e := Error(message);
          error := Some(e);
          r := Raised(e);
        case Rejected(ThrownOther) =>
          var e := Error(UNEXPECTED_MESSAGE);
          error := Some(e);
          r := Raised(e);
      }
      loading := false;
    }

    /** One `generate` call that no other call overlaps. */
    method Generate(outcome: ProviderOutcome) returns (r: Settlement)
      modifies this
      ensures r == SettlementOf(outcome)
      ensures !loading
      ensures data.Some? <==> error.None?
      ensures r.Returned? ==> data == Some(r.text)
      ensures r.Raised? ==> error == Some(r.error)
    {
      Begin();
      r := Settle(outcome);
    }
  }
}
