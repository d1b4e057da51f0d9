/** The application error hierarchy: an abstract `ApplicationError` whose
    `name` is the concrete class name, and seven concrete kinds, each with
    its own message rule. Constructing any of them never fails. */
module ApplicationErrors {
  import opened SharedTypes

  datatype Kind =
    | ValidationError
    | NotFoundError
    | UnauthorizedError
    | ForbiddenError
    | BadRequestError
    | ConflictError
    | InternalError

  /** The class name the base constructor copies into `name`. */
  function KindName(k: Kind): string {
    match k
    case ValidationError => "ValidationError"
    case NotFoundError => "NotFoundError"
    case UnauthorizedError => "UnauthorizedError"
    case ForbiddenError => "ForbiddenError"
    case BadRequestError => "BadRequestError"
    case ConflictError => "ConflictError"
    case InternalError => "InternalError"
  }

  /** Reads a kind back from its class name. */
  function KindOfName(name: string): (k: Option<Kind>)
    ensures k.Some? ==> KindName(k.value) == name
    ensures k.None? ==> forall kind :: KindName(kind) != name
  {
    if name == "ValidationError" then Some(ValidationError)
    else if name == "NotFoundError" then Some(NotFoundError)
    else if name == "UnauthorizedError" then Some(UnauthorizedError)
    else if name == "ForbiddenError" then Some(ForbiddenError)
    else if name == "BadRequestError" then Some(BadRequestError)
    else if name == "ConflictError" then Some(ConflictError)
    else if name == "InternalError" then Some(InternalError)
    else None
  }

  /** Distinct kinds have distinct names, so `name` identifies the kind. */
  lemma NameIdentifiesKind(k: Kind)
    ensures KindOfName(KindName(k)) == Some(k)
  {
  }

  datatype ApplicationError = ApplicationError(kind: Kind, message: string) {
    function Name(): string { KindName(kind) }
  }

  const UnauthorizedMessage := "Unauthorized access"
  const ForbiddenMessage := "Access forbidden"
  const InternalDefaultMessage := "Internal server error"

  function NewValidationError(message: string): (e: ApplicationError)
    ensures e.Name() == "ValidationError"
    ensures e.message == message
  {
    ApplicationError(ValidationError, message)
  }

  /** `new NotFoundError(entity)`: the message names the entity. */
  function NewNotFoundError(entity: string): (e: ApplicationError)
    ensures e.Name() == "NotFoundError"
    ensures e.message == entity + " not found"
  {
    ApplicationError(NotFoundError, entity + " not found")
  }

  function NewUnauthorizedError(): (e: ApplicationError)
    ensures e.Name() == "UnauthorizedError"
    ensures e.message == "Unauthorized access"
  {
    ApplicationError(UnauthorizedError, UnauthorizedMessage)
  }

  function NewForbiddenError(): (e: ApplicationError)
    ensures e.Name() == "ForbiddenError"
    ensures e.message == "Access forbidden"
  {
    ApplicationError(ForbiddenError, ForbiddenMessage)
  }

  function NewBadRequestError(message: string): (e: ApplicationError)
    ensures e.Name() == "BadRequestError"
    ensures e.message == message
  {
    ApplicationError(BadRequestError, message)
  }

  function NewConflictError(message: string): (e: ApplicationError)
    ensures e.Name() == "ConflictError"
    ensures e.message == message
  {
    ApplicationError(ConflictError, message)
  }

  /** `new InternalError(error?)`: the inner error's message when there is
      one and it is not empty (`||` treats "" as missing), else the default.
      `inner` is the message of the optional inner `Error`. */
  function NewInternalError(inner: Option<string>): (e: ApplicationError)
    ensures e.Name() == "InternalError"
    ensures inner.Some? && inner.value != "" ==> e.message == inner.value
    ensures inner.None? || inner.value == "" ==> e.message == "Internal server error"
    ensures e.message != ""
  {
    var message := if inner.Some? && inner.value != "" then inner.value else InternalDefaultMessage;
    ApplicationError(InternalError, message)
  }
}
