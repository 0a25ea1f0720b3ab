/** The application's error values (package apperror) and the small part of
    Go's `error` machinery the service relies on: the text of an error,
    `errors.Unwrap` and `errors.Is`. */
module AppErrors {
  import opened Wrappers

  /** A Go `error` value as the service sees it. */
  datatype GoError =
    | App(app: AppError)                   // an *AppError
    | Text(msg: string)                    // errors.New, or fmt.Errorf without %w
    | Wrapped(msg: string, inner: GoError) // fmt.Errorf with one %w verb

  /** The AppError record: the inner error and the three strings sent to
      clients. */
  datatype AppError = AppError(err: GoError, message: string, developerMessage: string, code: string)

  const SystemErrorCode: string := "NS-000001"
  const BadRequestCode: string := "NS-000002"
  const NotFoundCode: string := "NS-000010"
  const BadRequestDeveloperMessage: string := "something wrong with user data"

  /** What `fmt.Sprintf(f)` yields when the format `f` gets no operands:
      `%%` becomes `%`, any other verb `%c` becomes `%!c(MISSING)` and a
      trailing lone `%` becomes `%!(NOVERB)`. A format without `%` is
      returned unchanged. */
  function FormatNoArgs(f: string): (s: string)
    ensures '%' !in f ==> s == f
    decreases |f|
  {
    if |f| == 0 then ""
    else if f[0] != '%' then [f[0]] + FormatNoArgs(f[1..])
    else if |f| == 1 then "%!(NOVERB)"
    else if f[1] == '%' then "%" + FormatNoArgs(f[2..])
    else "%!" + [f[1]] + "(MISSING)" + FormatNoArgs(f[2..])
  }

  /** `err.Error()`: the text of an error. An AppError answers with the
      text of its inner error. */
  function ErrorText(e: GoError): (s: string)
    ensures e.App? ==> s == ErrorText(e.app.err)
    ensures !e.App? ==> s == e.msg
  {
    match e
    case App(a) => ErrorText(a.err)
    case Text(m) => m
    case Wrapped(m, _) => m
  }

  /** `fmt.Errorf(prefix + "%w", e)`: keeps `e` in the chain. */
  function Wrap(prefix: string, e: GoError): (r: GoError)
    ensures ErrorText(r) == prefix + ErrorText(e)
    ensures Unwrap(r) == Some(e)
  {
    Wrapped(prefix + ErrorText(e), e)
  }

  /** `fmt.Errorf(prefix + "%s", e)`: the same text, but the chain ends here. */
  function Describe(prefix: string, e: GoError): (r: GoError)
    ensures ErrorText(r) == prefix + ErrorText(e)
    ensures Unwrap(r) == None
  {
    Text(prefix + ErrorText(e))
  }

  /** `errors.Unwrap(e)`; for an AppError this is `AppError.Unwrap`. */
  function Unwrap(e: GoError): (r: Option<GoError>)
    ensures r.None? <==> e.Text?
    ensures e.App? ==> r == Some(e.app.err)
    ensures e.Wrapped? ==> r == Some(e.inner)
  {
    match e
    case App(a) => Some(a.err)
    case Text(_) => None
    case Wrapped(_, inner) => Some(inner)
  }

  /** `errors.Is(e, target)`: `target` is `e` or is reached from `e` by
      repeated unwrapping. */
  predicate Is(e: GoError, target: GoError)
    ensures Is(e, target) <==> e == target || (Unwrap(e).Some? && Is(Unwrap(e).value, target))
  {
    e == target ||
    match e
    case App(a) => Is(a.err, target)
    case Text(_) => false
    case Wrapped(_, inner) => Is(inner, target)
  }

  /** `NewAppError(message, code, developerMessage)`. */
  function NewAppError(message: string, code: string, developerMessage: string): (r: AppError)
    ensures r.message == message && r.code == code && r.developerMessage == developerMessage
    ensures Unwrap(App(r)) == Some(Text(FormatNoArgs(message)))
  {
    AppError(Text(FormatNoArgs(message)), message, developerMessage, code)
  }

  /** `ErrNotFound`, the package-level "not found" error. */
  const ErrNotFound: AppError := NewAppError("not found", NotFoundCode, "")

  /** `BadRequestError(message)`. */
  function BadRequestError(message: string): (r: AppError)
    ensures r.message == message && r.code == BadRequestCode
    ensures r.developerMessage == BadRequestDeveloperMessage
  {
    NewAppError(message, BadRequestCode, BadRequestDeveloperMessage)
  }

  /** `systemError(developerMessage)`. */
  function SystemError(developerMessage: string): (r: AppError)
    ensures r.message == "system error" && r.code == SystemErrorCode
    ensures r.developerMessage == developerMessage
  {
    NewAppError("system error", SystemErrorCode, developerMessage)
  }

  /** The text of an AppError is the message it was built from, as long as
      that message holds no formatting verb. */
  lemma {:induction false} AppErrorTextIsMessage(message: string, code: string, developerMessage: string)
    requires '%' !in message
    ensures ErrorText(App(NewAppError(message, code, developerMessage))) == message
  {
  }

  /** `ErrNotFound` as clients and logs see it. */
  lemma NotFoundFields()
    ensures ErrNotFound.message == "not found" && ErrNotFound.code == NotFoundCode
    ensures ErrNotFound.developerMessage == ""
    ensures ErrorText(App(ErrNotFound)) == "not found"
  {
  }

  /** Wrapping with %w keeps every error of the chain reachable by `Is`;
      describing with %s keeps none of them except the new text itself. */
  lemma WrapKeepsChain(prefix: string, e: GoError, target: GoError)
    ensures Is(e, target) ==> Is(Wrap(prefix, e), target)
    ensures target != Describe(prefix, e) ==> !Is(Describe(prefix, e), target)
  {
  }

  /** No error built by `BadRequestError` or `systemError` is classified as
      `ErrNotFound`: the three codes differ. */
  lemma {:induction false} ErrorKindsDistinct(m: string, d: string)
    ensures !Is(App(BadRequestError(m)), App(ErrNotFound))
    ensures !Is(App(SystemError(d)), App(ErrNotFound))
    ensures BadRequestError(m) != SystemError(d)
  {
    assert BadRequestCode != NotFoundCode;
    assert SystemErrorCode != NotFoundCode;
    assert BadRequestCode != SystemErrorCode;
  }
}
