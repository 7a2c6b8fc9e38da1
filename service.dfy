/** What a component sees of a call through the browser-side service: the
    response, or a thrown value, which is an `Error` carrying a message or
    anything else. */
module Service {

  datatype Thrown = ErrorInstance(message: string) | OtherThrown

  datatype ServiceOutcome<R> = Returned(response: R) | Threw(thrown: Thrown)

  /** `error instanceof Error ? error.message : fallback` */
  function ErrorText(t: Thrown, fallback: string): (text: string)
    ensures t.ErrorInstance? ==> text == t.message
    ensures t.OtherThrown? ==> text == fallback
  {
    match t
    case ErrorInstance(message) => message
    case OtherThrown => fallback
  }
}
