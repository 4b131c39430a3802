/**
 * The application's exceptions (exception/exceptions.py) and how the HTTP
 * layer turns them into responses (exception/exception_handler.py).
 */
module Exceptions {
  import opened Wrappers

  /** `BaseAppException` and its three subclasses. */
  datatype Kind = BaseApp | ProviderApi | ToolExecution | Configuration

  /** An application exception: its class, message and status code. */
  datatype AppException = AppException(kind: Kind, message: string, statusCode: int)

  /** The status code each class's constructor uses when none is given. */
  function DefaultStatus(kind: Kind): int
  {
    if kind == ProviderApi then 400 else 500
  }

  /** The immediate base class; every subclass derives from `BaseAppException`. */
  function Parent(kind: Kind): Option<Kind>
  {
    if kind == BaseApp then None else Some(BaseApp)
  }

  /** `isinstance(e, BaseAppException)` holds for every kind. */
  predicate IsBaseApp(kind: Kind)
  {
    kind == BaseApp || Parent(kind) == Some(BaseApp)
  }

  /** The constructors: record the message, and the given status code or the class's default. */
  function NewAppException(kind: Kind, message: string, statusCode: Option<int>): (e: AppException)
    ensures e.kind == kind && e.message == message
    ensures statusCode.Some? ==> e.statusCode == statusCode.value
    ensures statusCode.None? ==> e.statusCode == DefaultStatus(kind)
  {
    AppException(kind, message, if statusCode.Some? then statusCode.value else DefaultStatus(kind))
  }

  /** The defaults: 400 for a provider error, 500 for every other class. */
  lemma DefaultStatuses(message: string)
    ensures NewAppException(BaseApp, message, None).statusCode == 500
    ensures NewAppException(ProviderApi, message, None).statusCode == 400
    ensures NewAppException(ToolExecution, message, None).statusCode == 500
    ensures NewAppException(Configuration, message, None).statusCode == 500
    ensures forall k :: IsBaseApp(k)
  {
  }

  /** An exception reaching the HTTP layer: an application exception, or any other one with its text. */
  datatype Raised = App(e: AppException) | Other(text: string)

  /** A JSON response `{"error": error}` with its status code. */
  datatype Response = Response(status: int, error: string)

  const InternalError: string := "An internal server error occurred. Please try again later."

  /** The handlers, the most specific one chosen: provider errors, other application exceptions, anything else. */
  function Handle(r: Raised): Response
  {
    match r
    case App(e) =>
      if e.kind == ProviderApi then Response(e.statusCode, "Provider API Error: " + e.message)
      else Response(e.statusCode, e.message)
    case Other(_) => Response(500, InternalError)
  }

  /** Application exceptions keep their own status code; a provider error's message is prefixed. */
  lemma AppStatusKept(e: AppException)
    ensures Handle(App(e)).status == e.statusCode
    ensures e.kind == ProviderApi ==> Handle(App(e)).error == "Provider API Error: " + e.message
    ensures e.kind != ProviderApi ==> Handle(App(e)).error == e.message
  {
  }

  /** Any other exception answers 500 with a fixed message that does not depend on the exception. */
  lemma OtherIsOpaque(a: string, b: string)
    ensures Handle(Other(a)) == Handle(Other(b))
    ensures Handle(Other(a)).status == 500 && Handle(Other(a)).error == InternalError
  {
  }

  /** A provider error raised with its default status answers 400; the other classes answer 500. */
  lemma DefaultResponses(kind: Kind, message: string)
    ensures Handle(App(NewAppException(kind, message, None))).status == (if kind == ProviderApi then 400 else 500)
  {
  }
}
