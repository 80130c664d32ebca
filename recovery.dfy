/**
 * The engine's ERROR handler: how a reported failure is classified and what
 * the player does about it.
 */
module Recovery {
  import opened Wrappers

  /** The engine's error categories (`Hls.ErrorTypes`). */
  datatype ErrorType = NetworkError | MediaError | KeySystemError | MuxError | OtherError

  /** The payload of an engine ERROR event, reduced to what the handler inspects. */
  datatype ErrorData = ErrorData(errorType: ErrorType, fatal: bool, details: string)

  /** What the handler does: call `recoverMediaError`, set the error message, destroy the engine. */
  datatype Reaction = Reaction(recover: bool, message: Option<string>, destroy: bool)

  const NetworkMessage: string := "Network error occurred. Please check your connection."
  const FatalMessage: string := "A fatal error occurred during playback."
  const UnsupportedMessage: string := "HLS is not supported in this browser."

  /**
   * A non-fatal error changes nothing; a fatal media error is recovered
   * without a message and without destroying; a fatal network error sets the
   * network message and keeps the engine; any other fatal error sets the
   * generic message and destroys the engine.
   */
  function ReactTo(data: ErrorData): (r: Reaction)
    ensures !data.fatal ==> r == Reaction(false, None, false)
    ensures r.recover <==> data.fatal && data.errorType == MediaError
    ensures r.destroy <==> data.fatal && data.errorType != MediaError && data.errorType != NetworkError
    ensures r.message == None <==> !data.fatal || data.errorType == MediaError
    ensures data.fatal && data.errorType == NetworkError ==> r.message == Some(NetworkMessage)
    ensures r.destroy ==> r.message == Some(FatalMessage)
  {
    if !data.fatal then Reaction(false, None, false)
    else match data.errorType
      case MediaError => Reaction(true, None, false)
      case NetworkError => Reaction(false, Some(NetworkMessage), false)
      case _ => Reaction(false, Some(FatalMessage), true)
  }

  /** At most one of recovering and destroying happens, and a network error never destroys. */
  lemma ReactionsExclusive(data: ErrorData)
    ensures !(ReactTo(data).recover && ReactTo(data).destroy)
    ensures data.errorType == NetworkError ==> !ReactTo(data).destroy
    ensures ReactTo(data).recover ==> ReactTo(data).message.None?
  {
  }
}
