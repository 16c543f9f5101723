/**
 * `parse`: validate a response body against a schema, turning a validation failure
 * into an APIValidationError. The schema's validation is supplied as a function.
 */
module Parsers {
  import opened Values
  import opened Exceptions

  /** `parse(response, model)`: the validated instance, or the wrapped validation failure
      (or the exception that escaped `wrap` while it read the failure's `errors()`). */
  function Parse<T>(content: string, validate: string -> Outcome<T, ValidationFailure>, rt: Runtime): (r: Outcome<T, Failure>)
    ensures r.Returned? <==> validate(content).Returned?
    ensures validate(content).Returned? ==> r == Returned(validate(content).value)
    ensures validate(content).Raised? && WrapValidation(validate(content).error, rt).Returned? ==>
      && r.Raised? && r.error.Api?
      && r.error.api == WrapValidation(validate(content).error, rt).value
      && r.error.api.code == Str(ValidationCode)
    ensures validate(content).Raised? && WrapValidation(validate(content).error, rt).Raised? ==>
      r == Raised(Builtin(validate(content).error.errors.error))
  {
    match validate(content)
    case Returned(instance) => Returned(instance)
    case Raised(failure) =>
      match WrapValidation(failure, rt)
      case Returned(e) => Raised(Api(e))
      case Raised(b) => Raised(Builtin(b))
  }
}
