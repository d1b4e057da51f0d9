/** The base error hierarchy: an abstract `BaseError` whose `name` is the
    concrete class name, its three kinds, and `HttpError`, the
    transport-level kind that also extends it. */
module BaseErrors {
  import opened JsValues

  datatype BaseError =
    | ValidationError(message: string)
    | NotFoundError(message: string)
    | UnexpectedError(message: string)
    | HttpError(message: string, statusCode: int, body: Value)
  {
    /** The class name the base constructor copies into `name`. */
    function Name(): string {
      match this
      case ValidationError(_) => "ValidationError"
      case NotFoundError(_) => "NotFoundError"
      case UnexpectedError(_) => "UnexpectedError"
      case HttpError(_, _, _) => "HttpError"
    }
  }

  /** Every kind has its own name, so `name` tells the kinds apart. */
  lemma NameIdentifiesKind(a: BaseError, b: BaseError)
    ensures a.Name() == b.Name() <==>
      (a.ValidationError? && b.ValidationError?) || (a.NotFoundError? && b.NotFoundError?)
      || (a.UnexpectedError? && b.UnexpectedError?) || (a.HttpError? && b.HttpError?)
  {
  }

  const UnexpectedMessage := "An unexpected error occurred"

  function NewValidationError(message: string): (e: BaseError)
    ensures e.Name() == "ValidationError"
    ensures e.message == message
  {
    ValidationError(message)
  }

  /** `new NotFoundError(entity)`: the message names the entity. */
  function NewNotFoundError(entity: string): (e: BaseError)
    ensures e.Name() == "NotFoundError"
    ensures e.message == entity + " not found"
  {
    NotFoundError(entity + " not found")
  }

  function NewUnexpectedError(): (e: BaseError)
    ensures e.Name() == "UnexpectedError"
    ensures e.message == "An unexpected error occurred"
  {
    UnexpectedError(UnexpectedMessage)
  }
}
