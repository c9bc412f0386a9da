/**
 * The fetch-error normaliser of src/lib/utils.ts: any caught value becomes an
 * object carrying one displayable `error` string.
 */
module FetchErrors {

  /** A caught JavaScript value: an `Error` with its message, or anything else. */
  datatype Thrown = ThrownError(message: string) | ThrownOther

  /** The `{ error: string }` object that the normaliser returns. */
  datatype ErrorObject = ErrorObject(error: string)

  /** The message the fetch API gives when the server cannot be reached. */
  const FETCH_FAILED: string := "fetch failed"
  /** What a connectivity failure is reported as. */
  const CONNECTION_MESSAGE: string := "Error al conectar con el servidor"
  /** What a non-Error value is reported as. */
  const UNKNOWN_MESSAGE: string := "Ocurrió un error desconocido"

  /**
   * handleFetchError: total, never throws. An Error keeps its message,
   * except the raw connectivity message, which is replaced by a dedicated one;
   * anything that is not an Error gets a fixed generic message.
   */
  function HandleFetchError(thrown: Thrown): (r: ErrorObject)
    ensures r.error != FETCH_FAILED
    ensures thrown == ThrownError(FETCH_FAILED) ==> r.error == CONNECTION_MESSAGE
    ensures thrown.ThrownError? && thrown.message != FETCH_FAILED ==> r.error == thrown.message
    ensures thrown.ThrownOther? ==> r.error == UNKNOWN_MESSAGE
  {
    match thrown
    case ThrownError(message) =>
      if message == FETCH_FAILED then ErrorObject(CONNECTION_MESSAGE) else ErrorObject(message)
    case ThrownOther => ErrorObject(UNKNOWN_MESSAGE)
  }

  /**
   * An Error's message comes back unchanged exactly when it is not the raw
   * connectivity message.
   */
  lemma KeepsMessageUnlessConnectivity(message: string)
    ensures HandleFetchError(ThrownError(message)).error == message <==> message != FETCH_FAILED
  {
  }
}
