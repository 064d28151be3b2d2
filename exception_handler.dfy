/** GlobalExceptionHandler.java: the response an exception that escapes a
    controller turns into. Spring picks the handler of the most specific
    exception class; each handler builds an ErrorResponse. */
module ExceptionHandler {
  import opened Wrappers
  import opened Text
  import opened Errors

  /** The JSON body of an error (its timestamp is left out). */
  datatype ErrorResponse = ErrorResponse(error: string, message: string, details: Option<seq<string>>, path: string)

  datatype Response = Response(status: nat, body: ErrorResponse)

  /** The reason phrase of an HTTP status, as section 15 of RFC 9110 names it. */
  function ReasonPhrase(status: nat): string
  {
    match status
    case 400 => "Bad Request"
    case 401 => "Unauthorized"
    case 403 => "Forbidden"
    case 404 => "Not Found"
    case 500 => "Internal Server Error"
    case _ => ""
  }

  /** The reported path: the request description with every "uri=" removed. */
  function StripUri(description: string): string
  {
    RemoveAll(description, "uri=")
  }

  /** A request description is "uri=" followed by the path; the handler
      reports the path itself, and a description without "uri=" as is. */
  lemma StripUriOfRequest(path: string)
    requires !Contains(path, "uri=")
    ensures StripUri("uri=" + path) == path
    ensures StripUri(path) == path
  {
    RemoveAllPrefix("uri=", path);
    RemoveAllAbsent(path, "uri=");
  }

  /** One line of the details list of a validation failure. */
  function Detail(e: FieldError): string
  {
    e.field + ": " + e.defaultMessage
  }

  /** The details list: one line per field error, in order. */
  function Details(errors: seq<FieldError>): seq<string>
  {
    seq(|errors|, i requires 0 <= i < |errors| => Detail(errors[i]))
  }

  /** handleValidationExceptions' loop over the field errors. */
  method CollectDetails(errors: seq<FieldError>) returns (details: seq<string>)
    ensures details == Details(errors)
  {
    details := [];
    for i := 0 to |errors|
      invariant |details| == i
      invariant forall k :: 0 <= k < i ==> details[k] == Detail(errors[k])
    {
      details := details + [errors[i].field + ": " + errors[i].defaultMessage];
    }
  }

  /** The handler Spring selects for `e`, applied to a request whose
      description is `description`. */
  function Handle(e: Exception, description: string): (r: Response)
    ensures r.body.error == ReasonPhrase(r.status)
    ensures r.body.path == StripUri(description)
    ensures r.status == 404 <==> e.ResourceNotFound?
    ensures r.status == 403 <==> e.UnauthorizedAccess? || e.AccessDenied?
    ensures r.status == 401 <==> e.BadCredentials?
    ensures r.status == 400 <==> e.IllegalArgument? || e.Runtime? || e.MethodArgumentNotValid?
    ensures r.status == 500 <==> e.Checked?
    ensures r.body.details.Some? <==> e.MethodArgumentNotValid?
    ensures e.MethodArgumentNotValid? ==> r.body.details.value == Details(e.fieldErrors)
    ensures !e.BadCredentials? && !e.AccessDenied? && !e.Checked? ==> r.body.message == e.Message()
  {
    var path := StripUri(description);
    match e
    case ResourceNotFound(m) => Response(404, ErrorResponse("Not Found", m, None, path))
    case UnauthorizedAccess(m) => Response(403, ErrorResponse("Forbidden", m, None, path))
    case BadCredentials(_) => Response(401, ErrorResponse("Unauthorized", "Invalid credentials", None, path))
    case AccessDenied(_) =>
      Response(403, ErrorResponse("Forbidden", "You don't have permission to access this resource", None, path))
    case MethodArgumentNotValid(errors) =>
      Response(400, ErrorResponse("Bad Request", "Validation failed", Some(Details(errors)), path))
    case IllegalArgument(m) => Response(400, ErrorResponse("Bad Request", m, None, path))
    case Runtime(m) => Response(400, ErrorResponse("Bad Request", m, None, path))
    case Checked(_) => Response(500, ErrorResponse("Internal Server Error", "An unexpected error occurred", None, path))
  }

  /** Bad credentials, access denied and checked exceptions are answered with
      a fixed text whatever their own message says. */
  lemma FixedMessages(description: string, m1: string, m2: string)
    ensures Handle(BadCredentials(m1), description) == Handle(BadCredentials(m2), description)
    ensures Handle(AccessDenied(m1), description) == Handle(AccessDenied(m2), description)
    ensures Handle(Checked(m1), description) == Handle(Checked(m2), description)
    ensures Handle(BadCredentials(m1), description).body.message == "Invalid credentials"
    ensures Handle(AccessDenied(m1), description).body.message == "You don't have permission to access this resource"
    ensures Handle(Checked(m1), description).body.message == "An unexpected error occurred"
  {
  }

  /** A validation failure reports one "field: message" line per field
      error, in the order of the errors. */
  lemma ValidationDetailsInOrder(errors: seq<FieldError>, description: string)
    ensures var d := Handle(MethodArgumentNotValid(errors), description).body.details;
      && d.Some? && |d.value| == |errors|
      && forall i :: 0 <= i < |errors| ==> d.value[i] == errors[i].field + ": " + errors[i].defaultMessage
  {
  }
}
