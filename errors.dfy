/**
 * `handleApiError` (src/services/facr/facrApi.ts): every failed call is turned into
 * an `Error` whose message depends on which of three shapes the failure has.
 */
module Errors {
  import opened Wrappers

  /**
   * The three shapes of a failure, told apart in the source by which of
   * `error.response` and `error.request` is present.
   */
  datatype ApiFailure =
    /** The server answered outside 2xx; `serverMessage` is `response.data.message`, absent when
        the body or its message field is missing. */
    | RemoteRejected(serverMessage: Option<string>)
    /** The request went out and no answer came back. */
    | Unreachable
    /** Anything else: the request was never sent, or the error is not a transport error at all
        (for instance an `Error` thrown by another client call); `message` is `error.message`. */
    | RequestSetupFailed(message: string)

  const DefaultMessage: string := "API request failed"
  const NoResponseMessage: string :=
    "No response from server. " + "Please check if the FACR scraper API is running."
  const SetupPrefix: string := "API request failed: "

  /** `errorData.message || 'API request failed'`: an absent or empty message falls back to the default. */
  function ServerMessage(message: Option<string>): string
  {
    if message.Some? && message.value != "" then message.value else DefaultMessage
  }

  /** The message of the `Error` that `handleApiError` throws. */
  function HandleApiError(failure: ApiFailure): string
  {
    match failure
    case RemoteRejected(m) => ServerMessage(m)
    case Unreachable => NoResponseMessage
    case RequestSetupFailed(m) => SetupPrefix + m
  }

  /**
   * What each of the three shapes yields: a non-empty server message verbatim, otherwise
   * the default; the fixed no-response text; the setup prefix followed by the error's own message.
   */
  lemma HandleApiErrorCases(failure: ApiFailure)
    ensures failure.RemoteRejected? && failure.serverMessage.Some? && failure.serverMessage.value != ""
      ==> HandleApiError(failure) == failure.serverMessage.value
    ensures failure.RemoteRejected? && (failure.serverMessage.None? || failure.serverMessage.value == "")
      ==> HandleApiError(failure) == DefaultMessage
    ensures failure.Unreachable? ==> HandleApiError(failure) == NoResponseMessage
    ensures failure.RequestSetupFailed? ==> HandleApiError(failure) == SetupPrefix + failure.message
  {
  }

  /** A caught error is never turned into an `Error` with an empty message. */
  lemma MessageNonEmpty(failure: ApiFailure)
    ensures |HandleApiError(failure)| > 0
  {
  }

  /**
   * The three shapes can be told apart from the message whenever the server gave none of
   * its own: the default, the no-response text and every setup message differ pairwise.
   */
  lemma {:induction false} ShapesDistinguishable(setupMessage: string)
    ensures HandleApiError(RemoteRejected(None)) != HandleApiError(Unreachable)
    ensures HandleApiError(RemoteRejected(None)) != HandleApiError(RequestSetupFailed(setupMessage))
    ensures HandleApiError(Unreachable) != HandleApiError(RequestSetupFailed(setupMessage))
  {
    var setup := HandleApiError(RequestSetupFailed(setupMessage));
    assert |setup| > |DefaultMessage|;
    assert setup[0] == SetupPrefix[0] == 'A';
    assert NoResponseMessage[0] == 'N';
  }
}
