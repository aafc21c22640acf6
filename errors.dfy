/** The application's error taxonomy (package internal/errors): the AppError
    type, its constructors, the seven shared error values every handler
    returns, and the test that tells an AppError apart from any other Go
    error value. */
module Errors {
  import opened Wrappers

  /** A wrapped Go error. Only the text that `%v` prints for it matters here. */
  datatype Cause = Cause(text: string)

  /** An application error. Details is a Go map: a nil map and an empty one
      serialise alike (the field is `omitempty`), so both are `map[]` here.
      Details is the one field that is ever assigned after construction
      (by WithDetails); Code, Message and the cause Err are fixed when the
      error is made. */
  class AppError {
    const Code: int
    const Message: string
    var Details: map<string, string>
    const Err: Option<Cause>

    /** `New(code, message)`: no details and no cause. */
    constructor New(code: int, message: string)
      ensures Code == code && Message == message
      ensures Details == map[] && Err == None
    {
      Code, Message, Details, Err := code, message, map[], None;
    }

    /** `Wrap(err, code, message)`: keeps the cause (which Go allows to be nil). */
    constructor Wrap(err: Option<Cause>, code: int, message: string)
      ensures Code == code && Message == message
      ensures Details == map[] && Err == err
    {
      Code, Message, Details, Err := code, message, map[], err;
    }

    /** The text of the error: the message, followed by ": " and the cause's
        text when there is a cause. */
    function Error(): (s: string)
      ensures |Message| <= |s| && s[..|Message|] == Message
      ensures s == Message <==> Err.None?
      ensures Err.Some? ==> s[|Message|..] == ": " + Err.value.text
    {
      match Err
      case None => Message
      case Some(c) => Message + ": " + c.text
    }

    /** Replaces the details in place and hands back the receiver itself, so
        every holder of this object sees the new details; code, message and
        cause stay as they are. */
    method WithDetails(details: map<string, string>) returns (r: AppError)
      modifies this`Details
      ensures r == this && Details == details
    {
      Details := details;
      r := this;
    }
  }

  /** Names for the seven predefined errors. */
  datatype Kind =
    | InvalidInput | InvalidJSON
    | TaskNotFound | NotFound
    | ValidationFailed
    | InternalServer | DatabaseError

  /** The HTTP status of each predefined error (net/http's status constants). */
  function KindCode(k: Kind): (code: int)
    ensures code == 400 <==> k == InvalidInput || k == InvalidJSON
    ensures code == 404 <==> k == TaskNotFound || k == NotFound
    ensures code == 422 <==> k == ValidationFailed
    ensures code == 500 <==> k == InternalServer || k == DatabaseError
  {
    match k
    case InvalidInput => 400
    case InvalidJSON => 400
    case TaskNotFound => 404
    case NotFound => 404
    case ValidationFailed => 422
    case InternalServer => 500
    case DatabaseError => 500
  }

  function KindMessage(k: Kind): string {
    match k
    case InvalidInput => "Invalid input data"
    case InvalidJSON => "Invalid JSON format"
    case TaskNotFound => "Task not found"
    case NotFound => "Resource not found"
    case ValidationFailed => "Validation failed"
    case InternalServer => "Internal server error"
    case DatabaseError => "Database error"
  }

  /** No two predefined errors share a message, so the message of a response
      names the error it came from. */
  lemma KindMessageInjective(k1: Kind, k2: Kind)
    requires KindMessage(k1) == KindMessage(k2)
    ensures k1 == k2
  {
    var m1, m2 := KindMessage(k1), KindMessage(k2);
    assert |m1| == |m2|;
    assert m1[0] == m2[0];
  }

  /** The package-level error variables. They are shared by every request:
      a handler that calls WithDetails on one of them changes it for all. */
  class Catalog {
    const ErrInvalidInput: AppError
    const ErrInvalidJSON: AppError
    const ErrTaskNotFound: AppError
    const ErrNotFound: AppError
    const ErrValidationFailed: AppError
    const ErrInternalServer: AppError
    const ErrDatabaseError: AppError

    function Get(k: Kind): AppError {
      match k
      case InvalidInput => ErrInvalidInput
      case InvalidJSON => ErrInvalidJSON
      case TaskNotFound => ErrTaskNotFound
      case NotFound => ErrNotFound
      case ValidationFailed => ErrValidationFailed
      case InternalServer => ErrInternalServer
      case DatabaseError => ErrDatabaseError
    }

    /** Every shared error keeps the code and message it was created with and
        has no cause; they are seven distinct objects. Only Details varies. */
    predicate Valid() {
      && (forall k :: Get(k).Code == KindCode(k) && Get(k).Message == KindMessage(k) && Get(k).Err == None)
      && (forall k1, k2 :: k1 != k2 ==> Get(k1) != Get(k2))
    }

    /** The package initialisation: seven `New` calls. */
    constructor ()
      ensures Valid()
      ensures forall k :: fresh(Get(k)) && Get(k).Details == map[]
    {
      ErrInvalidInput := new AppError.New(400, "Invalid input data");
      ErrInvalidJSON := new AppError.New(400, "Invalid JSON format");
      ErrTaskNotFound := new AppError.New(404, "Task not found");
      ErrNotFound := new AppError.New(404, "Resource not found");
      ErrValidationFailed := new AppError.New(422, "Validation failed");
      ErrInternalServer := new AppError.New(500, "Internal server error");
      ErrDatabaseError := new AppError.New(500, "Database error");
    }
  }

  /** A Go `error` value as the error middleware receives it: nil, one of
      our *AppError objects, a *fiber.Error, or anything else. */
  datatype GoError =
    | Nil
    | App(app: AppError)
    | Fiber(code: int, message: string)
    | Other(text: string)

  /** The type assertion `err.(*AppError)`: ok exactly for an AppError, and
      then the very same object; otherwise a nil pointer. */
  function IsAppError(err: GoError): (r: (AppError?, bool))
    ensures r.1 <==> err.App?
    ensures r.1 ==> r.0 == err.app
    ensures !r.1 ==> r.0 == null
  {
    match err
    case App(e) => (e, true)
    case _ => (null, false)
  }
}
