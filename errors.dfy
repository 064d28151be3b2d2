/** The exceptions the services throw, distinguished as far as the
    controllers' catch clauses and the global exception handler tell them
    apart. Every message is present: the JVM fills in the text of a
    NullPointerException, so no exception reaches a handler without one. */
module Errors {

  /** One rejected field of a request body (Spring's FieldError). */
  datatype FieldError = FieldError(field: string, defaultMessage: string)

  datatype Exception =
    /** RuntimeException and every runtime subclass the handlers do not single
        out: the services' own failures, NullPointerException,
        DateTimeParseException, constraint violations on save. */
    | Runtime(message: string)
    /** IllegalArgumentException: Enum.valueOf, UUID.fromString, PageRequest.of. */
    | IllegalArgument(message: string)
    | ResourceNotFound(message: string)
    | UnauthorizedAccess(message: string)
    /** Spring Security's BadCredentialsException. */
    | BadCredentials(message: string)
    /** Spring Security's AccessDeniedException (a failed @PreAuthorize). */
    | AccessDenied(message: string)
    /** Bean Validation failure of a @Valid request body. */
    | MethodArgumentNotValid(fieldErrors: seq<FieldError>)
    /** Any checked exception. */
    | Checked(message: string)
  {
    /** Whether the exception is a RuntimeException, which decides which
        catch clause of a controller takes it. */
    predicate IsRuntime()
    {
      !Checked? && !MethodArgumentNotValid?
    }

    function Message(): string
    {
      if MethodArgumentNotValid? then "Validation failed" else message
    }
  }
}
