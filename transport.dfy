/**
 * How a request can end, as the stores see it, and how each store turns a failure into the
 * text it keeps in `error`. The requests themselves are not modelled: every operation takes
 * the outcome as a parameter.
 */
module Transport {
  import opened Wrappers
  import opened Text

  /**
   * What an axios call rejects with: the `detail` and `message` keys of the response body
   * (absent when there was no response) and the error's own `message`.
   */
  datatype AxiosError = AxiosError(detail: Option<string>, dataMessage: Option<string>, message: Option<string>)

  /**
   * The value a Redux thunk rejects with: `error.response?.data?.message || fallback`.
   */
  function RejectValue(e: AxiosError, fallback: string): (r: string)
    ensures Truthy(e.dataMessage) ==> r == e.dataMessage.value
    ensures !Truthy(e.dataMessage) ==> r == fallback
  {
    OrElse(e.dataMessage, fallback)
  }

  /**
   * The text a Svelte store keeps after an axios failure:
   * `error.response?.data?.detail || error.message || fallback`.
   */
  function AxiosErrorText(e: AxiosError, fallback: string): (r: string)
    ensures Truthy(e.detail) ==> r == e.detail.value
    ensures !Truthy(e.detail) && Truthy(e.message) ==> r == e.message.value
    ensures !Truthy(e.detail) && !Truthy(e.message) ==> r == fallback
  {
    OrElse(e.detail, OrElse(e.message, fallback))
  }

  /** With a non-empty fallback the stored text is never empty. */
  lemma AxiosErrorTextNonEmpty(e: AxiosError, fallback: string)
    requires fallback != ""
    ensures AxiosErrorText(e, fallback) != ""
  {
  }

  /** What a `catch (err)` block receives: an `Error` object, or some other thrown value. */
  datatype Thrown = ErrorObject(message: string) | NonError

  /** `err instanceof Error ? err.message : 'An unknown error occurred'`. */
  function CaughtMessage(t: Thrown): (r: string)
    ensures t.ErrorObject? ==> r == t.message
    ensures t.NonError? ==> r == "An unknown error occurred"
  {
    match t
    case ErrorObject(m) => m
    case NonError => "An unknown error occurred"
  }

  /**
   * How a `fetch` call followed by `response.json()` can fail: the server answered with a
   * non-ok status (with the `detail` of its body, if any), or something was thrown.
   */
  datatype Failure = Refused(detail: Option<string>) | Threw(thrown: Thrown)

  /** How a `fetch` call ends: the parsed body, or a failure. */
  datatype Outcome<+T> = Delivered(body: T) | Failed(failure: Failure)

  /**
   * The text a fetch-based store keeps after a failure. A store that throws
   * `new Error(data.detail || fallback)` on a non-ok status reads the detail; one that throws
   * `new Error(fallback)` does not.
   */
  function FailureText(f: Failure, fallback: string, readsDetail: bool): (r: string)
    ensures f.Refused? && readsDetail ==> r == OrElse(f.detail, fallback)
    ensures f.Refused? && !readsDetail ==> r == fallback
    ensures f.Threw? ==> r == CaughtMessage(f.thrown)
  {
    match f
    case Refused(detail) => if readsDetail then OrElse(detail, fallback) else fallback
    case Threw(t) => CaughtMessage(t)
  }

  /** A refused request never leaves an empty error text when the fallback is non-empty. */
  lemma RefusalTextNonEmpty(detail: Option<string>, fallback: string, readsDetail: bool)
    requires fallback != ""
    ensures FailureText(Refused(detail), fallback, readsDetail) != ""
  {
  }

  /**
   * The value a store rethrows with `throw err`: the `Error` it built from a refusal, or what
   * was thrown. Its message is the text the store kept.
   */
  function RethrownValue(f: Failure, fallback: string, readsDetail: bool): (t: Thrown)
    ensures CaughtMessage(t) == FailureText(f, fallback, readsDetail)
    ensures f.Threw? ==> t == f.thrown
  {
    match f
    case Refused(detail) => ErrorObject(if readsDetail then OrElse(detail, fallback) else fallback)
    case Threw(t) => t
  }
}
