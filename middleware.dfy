/** The central error handler (package internal/middleware): the decision
    it takes on the error the downstream handler returned. Writing the
    response and logging are left to the caller; what remains is the status
    and the JSON body it would write, or None when there is nothing to write. */
module Middleware {
  import opened Wrappers
  import opened Dto
  import opened Errors

  const GenericMessage: string := "An unexpected error occurred"

  /** `ErrorHandler`, after `c.Next()` has returned err. The three tests are
      taken in order: an *AppError, then a *fiber.Error, then anything else.
      The two pointer types are distinct Go types, so no value passes both
      tests; here they are distinct constructors of GoError. */
  function HandleError(err: GoError): (r: Option<(int, ErrorResponse)>)
    reads if err.App? then {err.app} else {}
    ensures r.None? <==> err.Nil?
    ensures r.Some? ==> r.value.0 == r.value.1.code
    ensures r.Some? ==> (r.value.1.error == "Application Error" <==> err.App?)
    ensures r.Some? ==> (r.value.1.error == "HTTP Error" <==> err.Fiber?)
    ensures r.Some? ==> (r.value.1.error == "Internal Server Error" <==> err.Other?)
    ensures err.App? ==> r.value.0 == err.app.Code && r.value.1.message == err.app.Message
                         && r.value.1.details == err.app.Details
    ensures err.Fiber? ==> r.value.0 == err.code && r.value.1.message == err.message
                           && "details" !in r.value.1.JsonKeys()
    ensures err.Other? ==> r.value.0 == 500 && r.value.1.message == GenericMessage
                           && "details" !in r.value.1.JsonKeys()
  {
    match err
    case Nil => None
    case App(_) =>
      var (appErr, ok) := IsAppError(err);
      Some((appErr.Code, ErrorResponse("Application Error", appErr.Message, appErr.Code, appErr.Details)))
    case Fiber(code, message) =>
      Some((code, ErrorResponse("HTTP Error", message, code, map[])))
    case Other(_) =>
      Some((500, ErrorResponse("Internal Server Error", GenericMessage, 500, map[])))
  }

  /** The cause an AppError wraps never reaches the response: two errors
      that agree on code, message and details get the same response,
      whatever their causes. */
  lemma CauseNeverInBody(a: AppError, b: AppError)
    requires a.Code == b.Code && a.Message == b.Message && a.Details == b.Details
    ensures HandleError(App(a)) == HandleError(App(b))
  {
  }

  /** No text of an unknown error reaches the response. */
  lemma UnknownErrorOpaque(t1: string, t2: string)
    ensures HandleError(Other(t1)) == HandleError(Other(t2))
  {
  }

  /** A shared error of the catalog is answered with its own status and
      message (400, 404, 422 or 500), and carries exactly the details last
      installed on it. */
  lemma CatalogErrorResponse(cat: Catalog, k: Kind)
    requires cat.Valid()
    ensures HandleError(App(cat.Get(k)))
         == Some((KindCode(k), ErrorResponse("Application Error", KindMessage(k), KindCode(k), cat.Get(k).Details)))
    ensures HandleError(App(cat.Get(k))).value.0 in {400, 404, 422, 500}
  {
  }

  /** The message of an application error response names the shared error it
      came from. */
  lemma ResponseNamesKind(cat: Catalog, k1: Kind, k2: Kind)
    requires cat.Valid()
    requires HandleError(App(cat.Get(k1))).value.1.message == HandleError(App(cat.Get(k2))).value.1.message
    ensures k1 == k2
  {
    KindMessageInjective(k1, k2);
  }
}
