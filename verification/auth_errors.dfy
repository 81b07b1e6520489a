/**
 * The messages the login and registration forms show: the shared
 * "all fields" and "connection" texts, and the mapping from a failed auth
 * call to the text shown.
 */
module AuthErrors {
  import opened Common

  const AllRequired := "Todos los campos son obligatorios."
  const TooManyAttempts := "Demasiados intentos. Espera un momento."
  const ConnectionError := "Error de conexión. Intenta de nuevo."

  /**
   * The catch block of both forms: for an API error, the message reserved
   * for the one status the form expects, the rate-limit message for 429
   * (section 4 of RFC 6585), or else the server's message, or `fallback`
   * when that is empty; for anything else, the connection message.
   */
  function SubmitError(f: Failure, expected: int, expectedMessage: string, fallback: string): string
  {
    match f
    case ApiFailure(status, message) =>
      if status == expected then expectedMessage
      else if status == 429 then TooManyAttempts
      else if message != "" then message
      else fallback
    case _ => ConnectionError
  }

  /** With non-empty texts to choose from, the form never shows an empty error. */
  lemma SubmitErrorNonEmpty(f: Failure, expected: int, expectedMessage: string, fallback: string)
    requires expectedMessage != "" && fallback != ""
    ensures SubmitError(f, expected, expectedMessage, fallback) != ""
  {
  }
}
