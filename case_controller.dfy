/** CaseController.java: the HTTP layer over CaseService. Each endpoint turns
    the service's result, or the exception it throws, into a status code and
    a JSON body. The current user (AuthService.getCurrentUser) is a
    parameter; @PreAuthorize("hasRole('LAWYER')") turns a non-lawyer away
    with an AccessDeniedException that GlobalExceptionHandler answers. */
module CaseController {
  import opened Wrappers
  import opened Text
  import opened Errors
  import opened Paging
  import opened Users
  import opened CaseEntity
  import opened Store
  import opened CaseRepository
  import opened CaseService
  import opened ExceptionHandler
  import opened Json

  /** The JSON body of a reply. */
  datatype Body =
    | CaseJson(c: CaseRecord)
    /** The map getCases builds: the matching cases (paged by the request),
        their total count, the page size and the offset. */
    | CasePage(cases: set<CaseId>, total: nat, limit: int, offset: int)
    /** The list of cases getRecentCases answers with. */
    | CaseList(rows: seq<CaseRecord>)
    /** Map.of("error", message). */
    | ErrorMap(error: string)
    /** A body written by GlobalExceptionHandler. */
    | Handled(response: ErrorResponse)

  datatype Reply = Reply(status: nat, body: Body)

  /** The reply to a caller turned away by @PreAuthorize. */
  function Forbidden(description: string): (r: Reply)
    ensures r.status == 403
    ensures r.body.Handled? && r.body.response.message == "You don't have permission to access this resource"
  {
    var h := Handle(AccessDenied("Access Denied"), description);
    Reply(h.status, Handled(h.body))
  }

  // ---------------------------------------------------------------------------
  // GET /api/cases
  // ---------------------------------------------------------------------------

  const IntMin: int := -0x8000_0000
  const IntMax: int := 0x7fff_ffff

  /** Java's 32-bit int arithmetic: the value wraps around modulo 2^32. */
  function WrapInt(x: int): (r: int)
    ensures IntMin <= r <= IntMax
    ensures IntMin <= x <= IntMax ==> r == x
    ensures (r - x) % 0x1_0000_0000 == 0
  {
    (x - IntMin) % 0x1_0000_0000 + IntMin
  }

  /** getCases: a lawyer gets the lawyer listing filtered by status and
      sorted by `sort`; anyone else the client listing, where both are
      ignored. Any failure answers 400 with the exception's message. */
  function GetCases(cases: map<CaseId, CaseRecord>, user: User, page: int, size: int, status: Option<string>, sort: string): (r: Reply)
    requires IntMin <= page <= IntMax && IntMin <= size <= IntMax
    ensures r.status == 200 <==>
      && 0 <= page && 1 <= size
      && (user.role == LAWYER && status.Some? && status.value != "" ==> StatusValueOf(ToUpper(status.value)).Some?)
    ensures r.status != 200 ==> r.status == 400 && r.body.ErrorMap?
    ensures page < 0 || size < 1 ==> r == Reply(400, ErrorMap(PageRequestOf(page, size, None).error.message))
    ensures 0 <= page && 1 <= size && user.role == LAWYER && status.Some? && status.value != ""
            && StatusValueOf(ToUpper(status.value)).None? ==>
      r == Reply(400, ErrorMap(NoEnumConstant(ToUpper(status.value))))
    ensures r.status == 200 ==>
      && r.body.CasePage? && r.body.limit == size
      && r.body.offset == WrapInt(page * size) && r.body.total == |r.body.cases|
    ensures r.status == 200 && user.role == CLIENT ==> r.body.cases == ByParty(cases, ClientSide, user.id)
    ensures r.status == 200 && user.role == LAWYER ==>
      r.body.cases == if status.None? || status.value == "" then ByParty(cases, LawyerSide, user.id)
                      else ByPartyAndStatus(cases, LawyerSide, user.id, StatusValueOf(ToUpper(status.value)).value)
  {
    var casePage :=
      if user.role == LAWYER then GetCasesByLawyer(cases, user, page, size, status, Some(sort))
      else GetCasesByClient(cases, user, page, size);
    match casePage
    case Err(e) => Reply(400, ErrorMap(e.Message()))
    case Ok(listing) =>
      Reply(200, CasePage(listing.matching, |listing.matching|, size, WrapInt(page * size)))
  }

  /** getRecentCases: a lawyer's latest cases as their lawyer, anyone
      else's as their client; limit defaults to 5, and a limit below one
      is answered 400 with PageRequest's message. */
  ghost function GetRecentCasesEndpoint(cases: map<CaseId, CaseRecord>, user: User, limit: Option<int>): (r: Reply)
    ensures var n := if limit.Some? then limit.value else 5;
      && (r.status == 200 <==> 1 <= n)
      && (n < 1 ==> r == Reply(400, ErrorMap("Page size must not be less than one")))
      && (r.status == 200 ==> r.body.CaseList? && IsRecentPage(cases, SideOf(user.role), user.id, n, r.body.rows))
    ensures limit.None? ==>
      var count := CountByParty(cases, SideOf(user.role), user.id);
      r.status == 200 && |r.body.rows| == (if count < 5 then count else 5)
  {
    var n := if limit.Some? then limit.value else 5;
    match GetRecentCases(cases, SideOf(user.role), user, n)
    case Err(e) => Reply(400, ErrorMap(e.Message()))
    case Ok(rows) => Reply(200, CaseList(rows))
  }

  /** A client's listing ignores the status filter and the sort key. */
  lemma ClientListingIgnoresFilters(cases: map<CaseId, CaseRecord>, user: User, page: int, size: int,
                                    s1: Option<string>, s2: Option<string>, o1: string, o2: string)
    requires IntMin <= page <= IntMax && IntMin <= size <= IntMax
    requires user.role == CLIENT
    ensures GetCases(cases, user, page, size, s1, o1) == GetCases(cases, user, page, size, s2, o2)
  {
  }

  /** The offset is page * size whenever that product fits in an int; a
      larger product wraps around as Java's int multiplication does. */
  lemma GetCasesOffset(cases: map<CaseId, CaseRecord>, user: User, page: int, size: int, status: Option<string>, sort: string)
    requires 0 <= page <= IntMax && 1 <= size <= IntMax
    requires user.role == CLIENT || status.None?
    ensures GetCases(cases, user, page, size, status, sort).status == 200
    ensures page * size <= IntMax ==> GetCases(cases, user, page, size, status, sort).body.offset == page * size
    ensures page == 0x10000 && size == 0x8000 ==> GetCases(cases, user, page, size, status, sort).body.offset == IntMin
  {
  }

  // ---------------------------------------------------------------------------
  // POST /api/cases
  // ---------------------------------------------------------------------------

  /** A JSON value where the source expects a number. */
  datatype JsonValue = JNumber(n: real) | JOther

  /** The request map of createCase. `lawyer` is the nested object (absent or
      null alike), and its `id` the lawyer's UUID text. */
  datatype CreateCaseRequest = CreateCaseRequest(
    title: Option<string>,
    description: Option<string>,
    nextHearing: Option<string>,
    caseValue: Option<JsonValue>,
    lawyer: Option<Option<string>>)

  /** What the controller hands to the service: the fields it copied into
      its Case, and the lawyer's id. */
  datatype CaseInputs = CaseInputs(title: Option<string>, description: Option<string>,
                                   nextHearing: Option<Time>, caseValue: Option<real>, lawyerId: UserId)

  /** The JVM's text for the null lawyer map. */
  const LawyerMapIsNull: string := "Cannot invoke \"java.util.Map.get(Object)\" because \"lawyerMap\" is null"
  /** The JVM's text for UUID.fromString(null). */
  const UuidIsNull: string := "Cannot invoke \"String.length()\" because \"name\" is null"

  function DateTimeParseError(text: string): string
  {
    "Text '" + text + "' could not be parsed"
  }

  function InvalidUuid(text: string): string
  {
    "Invalid UUID string: " + text
  }

  /** The input handling of createCase, in the order the source performs
      it: the lawyer map, then nextHearing (parsed only when non-empty), then
      caseValue (a non-number is ignored), then the lawyer's UUID.
      `parseDateTime` is LocalDateTime.parse and `parseUuid` UUID.fromString,
      each None where they throw. */
  function CreateCaseInputs(request: CreateCaseRequest, parseDateTime: string -> Option<Time>, parseUuid: string -> Option<UserId>)
    : (r: Result<CaseInputs, Exception>)
    ensures request.lawyer.None? ==> r == Err(Runtime(LawyerMapIsNull))
    ensures r.Ok? ==> r.value.title == request.title && r.value.description == request.description
    ensures r.Ok? ==> (r.value.caseValue.Some? <==> request.caseValue.Some? && request.caseValue.value.JNumber?)
    ensures r.Ok? <==>
      && request.lawyer.Some? && request.lawyer.value.Some?
      && parseUuid(request.lawyer.value.value).Some?
      && (request.nextHearing.Some? && request.nextHearing.value != "" ==> parseDateTime(request.nextHearing.value).Some?)
    ensures r.Ok? ==> r.value.lawyerId == parseUuid(request.lawyer.value.value).value
  {
    if request.lawyer.None? then Err(Runtime(LawyerMapIsNull))
    else
      var lawyerId := request.lawyer.value;
      var hearing :=
        if request.nextHearing.Some? && request.nextHearing.value != "" then
          match parseDateTime(request.nextHearing.value)
          case None => Err(Runtime(DateTimeParseError(request.nextHearing.value)))
          case Some(t) => Ok(Some(t))
        else Ok(None);
      if hearing.Err? then Err(hearing.error)
      else
        var caseValue := if request.caseValue.Some? && request.caseValue.value.JNumber? then Some(request.caseValue.value.n) else None;
        if lawyerId.None? then Err(Runtime(UuidIsNull))
        else match parseUuid(lawyerId.value)
          case None => Err(IllegalArgument(InvalidUuid(lawyerId.value)))
          case Some(id) => Ok(CaseInputs(request.title, request.description, hearing.value, caseValue, id))
  }

  /** A caseValue that is not a number is dropped without failing the
      request, just as an absent one; an empty nextHearing is not parsed. */
  lemma CreateCaseInputsLenient(request: CreateCaseRequest, parseDateTime: string -> Option<Time>, parseUuid: string -> Option<UserId>)
    ensures CreateCaseInputs(request.(caseValue := Some(JOther)), parseDateTime, parseUuid)
         == CreateCaseInputs(request.(caseValue := None), parseDateTime, parseUuid)
    ensures CreateCaseInputs(request.(nextHearing := Some("")), parseDateTime, parseUuid)
         == CreateCaseInputs(request.(nextHearing := None), parseDateTime, parseUuid)
  {
  }

  /** createCase: builds the Case the service copies from, step by step,
      then calls the service; every failure answers 400 with its message. */
  method CreateCaseEndpoint(db: Database, request: CreateCaseRequest, user: User, now: Time, year: nat, random: real,
                            parseDateTime: string -> Option<Time>, parseUuid: string -> Option<UserId>)
    returns (reply: Reply)
    requires db.Valid()
    requires 0.0 <= random < 1.0
    modifies db
    ensures db.Valid()
    ensures db.users == old(db.users) && db.documents == old(db.documents)
    ensures db.notifications == old(db.notifications)
    ensures reply.status == 200 || reply.status == 400
    ensures reply.status == 400 ==> reply.body.ErrorMap? && db.cases == old(db.cases)
    ensures var inputs := CreateCaseInputs(request, parseDateTime, parseUuid);
      && (inputs.Err? ==> reply == Reply(400, ErrorMap(inputs.error.Message())))
      && (reply.status == 200 <==>
            && inputs.Ok? && inputs.value.lawyerId in old(db.users) && request.title.Some?
            && !ExistsByCaseNumber(old(db.cases), CaseNumberFor(year, DrawNumber(random))))
      && (reply.status == 200 ==>
            && reply.body.CaseJson?
            && reply.body.c.id !in old(db.cases)
            && db.cases == old(db.cases)[reply.body.c.id := reply.body.c]
            && reply.body.c.status == PENDING
            && reply.body.c.client == user.id && reply.body.c.lawyer == inputs.value.lawyerId
            && reply.body.c.title == request.title.value && reply.body.c.description == request.description
            && reply.body.c.nextHearing == inputs.value.nextHearing
            && reply.body.c.caseValue == inputs.value.caseValue)
  {
    if request.lawyer.None? {
      return Reply(400, ErrorMap(LawyerMapIsNull));
    }
    var lawyerId := request.lawyer.value;
    var caseData := new Case();
    caseData.title := request.title;
    caseData.description := request.description;
    if request.nextHearing.Some? && request.nextHearing.value != "" {
      var parsed := parseDateTime(request.nextHearing.value);
      if parsed.None? {
        return Reply(400, ErrorMap(DateTimeParseError(request.nextHearing.value)));
      }
      caseData.nextHearing := parsed;
    }
    if request.caseValue.Some? && request.caseValue.value.JNumber? {
      caseData.caseValue := Some(request.caseValue.value.n);
    }
    if lawyerId.None? {
      return Reply(400, ErrorMap(UuidIsNull));
    }
    var lawyer := parseUuid(lawyerId.value);
    if lawyer.None? {
      return Reply(400, ErrorMap(InvalidUuid(lawyerId.value)));
    }
    var created := CreateCase(db, caseData, user, lawyer.value, now, year, random);
    if created.Err? {
      return Reply(400, ErrorMap(created.error.Message()));
    }
    reply := Reply(200, CaseJson(created.value));
  }

  // ---------------------------------------------------------------------------
  // PUT /api/cases/{id}
  // ---------------------------------------------------------------------------

  /** The members of the updateCase body that updateCase reads. */
  datatype UpdateBody = UpdateBody(title: Field<string>, description: Field<string>, status: Field<Status>,
                                   nextHearing: Field<Time>, notes: Field<string>)

  /** The status updateCase sees, as the source deserializes the body into a
      Case: the initializer `status = PENDING` survives a body without
      "status". */
  function StatusAsWritten(f: Field<Status>): Option<Status>
  {
    JsonField(f, Some(PENDING))
  }

  /** A title-only update of an ACTIVE or CLOSED case, as written, puts the
      case back to PENDING. */
  lemma TitleOnlyUpdateResetsStatus(c: CaseRecord, title: string, now: Time)
    requires c.status != PENDING
    ensures var u := ApplyCaseUpdate(c, Some(title), None, StatusAsWritten(Absent), None, None, now);
      u.status == PENDING && u.status != c.status
  {
  }

  /** The status updateCase should see: none unless the body names one. */
  function StatusIntended(f: Field<Status>): Option<Status>
  {
    JsonField(f, None)
  }

  /** With the intended reading, a body without "status" (missing or null)
      keeps the case's status, and one with it sets exactly that status. */
  lemma UpdateKeepsStatusUnlessGiven(c: CaseRecord, body: UpdateBody, now: Time)
    ensures var u := ApplyCaseUpdate(c, JsonField(body.title, None), JsonField(body.description, None),
                                     StatusIntended(body.status), JsonField(body.nextHearing, None),
                                     JsonField(body.notes, None), now);
      && (body.status.Present? ==> u.status == body.status.value)
      && (!body.status.Present? ==> u.status == c.status)
      && (body.title.Present? ==> u.title == body.title.value)
      && (!body.title.Present? ==> u.title == c.title)
  {
  }

  /** The update object handed to updateCase: Jackson starts from `new
      Case()` and sets the members the body names, so a body without
      "status" leaves the initializer's PENDING in place. */
  method ReadUpdateBody(body: UpdateBody) returns (updateData: Case)
    ensures fresh(updateData)
    ensures updateData.title == JsonField(body.title, None)
    ensures updateData.description == JsonField(body.description, None)
    ensures updateData.status == StatusAsWritten(body.status)
    ensures body.status.Absent? ==> updateData.status == Some(PENDING)
    ensures updateData.nextHearing == JsonField(body.nextHearing, None)
    ensures updateData.notes == JsonField(body.notes, None)
  {
    updateData := new Case();
    if !body.title.Absent? { updateData.title := JsonField(body.title, None); }
    if !body.description.Absent? { updateData.description := JsonField(body.description, None); }
    if !body.status.Absent? { updateData.status := JsonField(body.status, None); }
    if !body.nextHearing.Absent? { updateData.nextHearing := JsonField(body.nextHearing, None); }
    if !body.notes.Absent? { updateData.notes := JsonField(body.notes, None); }
  }

  /** updateCase: lawyers only; every service failure answers 400. The
      update applied is the one the source builds, so a body without
      "status" puts the case back to PENDING. */
  method UpdateCaseEndpoint(db: Database, caseId: CaseId, body: UpdateBody, user: User, now: Time, description: string)
    returns (reply: Reply)
    requires db.Valid()
    modifies db
    ensures db.Valid()
    ensures db.users == old(db.users) && db.documents == old(db.documents)
    ensures db.notifications == old(db.notifications)
    ensures user.role != LAWYER ==> reply == Forbidden(description) && db.cases == old(db.cases)
    ensures user.role == LAWYER ==>
      var guard := LawyerGuard(old(db.cases), caseId, user, "Only the assigned lawyer can update this case");
      && (guard.Some? ==> reply == Reply(400, ErrorMap(guard.value.message)) && db.cases == old(db.cases))
      && (guard.None? ==>
            var u := ApplyCaseUpdate(old(db.cases)[caseId], JsonField(body.title, None), JsonField(body.description, None),
                                     StatusAsWritten(body.status), JsonField(body.nextHearing, None),
                                     JsonField(body.notes, None), now);
            && reply == Reply(200, CaseJson(u)) && db.cases == old(db.cases)[caseId := u]
            && (body.status.Absent? ==> u.status == PENDING))
  {
    if user.role != LAWYER {
      return Forbidden(description);
    }
    var updateData := ReadUpdateBody(body);
    var updated := UpdateCase(db, caseId, updateData, user, now);
    if updated.Err? {
      return Reply(400, ErrorMap(updated.error.Message()));
    }
    reply := Reply(200, CaseJson(updated.value));
  }

  // ---------------------------------------------------------------------------
  // PUT /api/cases/{id}/status, /accept, /reject, /close
  // ---------------------------------------------------------------------------

  /** The JVM's text for a status request without "status". */
  const StatusIsNull: string := "Cannot invoke \"String.toUpperCase()\" because the return value of \"java.util.Map.get(Object)\" is null"

  /** The text is a status name in some letter case. */
  predicate NamesStatus(text: string)
  {
    exists s :: ToLower(text) == ToLower(StatusName(s))
  }

  /** Case.Status.valueOf(statusRequest.get("status").toUpperCase()). */
  function ParseStatus(raw: Option<string>): (r: Result<Status, Exception>)
    ensures raw.None? ==> r == Err(Runtime(StatusIsNull))
    ensures raw.Some? ==> (r.Ok? <==> NamesStatus(raw.value))
    ensures r.Ok? ==> ToLower(raw.value) == ToLower(StatusName(r.value))
    ensures r.Err? && raw.Some? ==> r.error.IllegalArgument?
  {
    if raw.None? then Err(Runtime(StatusIsNull))
    else
      var upper := ToUpper(raw.value);
      match StatusValueOf(upper)
      case None =>
        assert !NamesStatus(raw.value) by {
          forall s ensures ToLower(raw.value) != ToLower(StatusName(s)) {
            StatusNamesRoundTrip(s, upper);
            UpperEqualIffLowerEqual(raw.value, StatusName(s));
            UpperOfStatusName(s);
          }
        }
        Err(IllegalArgument(NoEnumConstant(upper)))
      case Some(s) =>
        StatusNamesRoundTrip(s, upper);
        UpperEqualIffLowerEqual(raw.value, StatusName(s));
        UpperOfStatusName(s);
        Ok(s)
  }

  /** Status names are already upper case. */
  lemma UpperOfStatusName(s: Status)
    ensures ToUpper(StatusName(s)) == StatusName(s)
  {
    match s
    case ACTIVE => assert ToUpper("ACTIVE") == "ACTIVE";
    case PENDING => assert ToUpper("PENDING") == "PENDING";
    case CLOSED => assert ToUpper("CLOSED") == "CLOSED";
  }

  /** The replies of updateCaseStatus's three catch clauses: an invalid name
      is 400 with a fixed text, any other runtime failure 403 with its
      message, anything else 500. */
  function StatusErrorReply(e: Exception): (r: Reply)
    ensures e.IllegalArgument? ==> r == Reply(400, ErrorMap("Invalid case status provided."))
    ensures !e.IllegalArgument? && e.IsRuntime() ==> r == Reply(403, ErrorMap(e.Message()))
    ensures !e.IsRuntime() ==> r.status == 500
  {
    if e.IllegalArgument? then Reply(400, ErrorMap("Invalid case status provided."))
    else if e.IsRuntime() then Reply(403, ErrorMap(e.Message()))
    else Reply(500, ErrorMap("An unexpected error occurred while updating case status."))
  }

  /** updateCaseStatus: lawyers only; the status text is parsed ignoring
      case, then the service is called. */
  method UpdateCaseStatusEndpoint(db: Database, caseId: CaseId, status: Option<string>, user: User, now: Time, description: string)
    returns (reply: Reply)
    requires db.Valid()
    modifies db
    ensures db.Valid()
    ensures db.users == old(db.users) && db.documents == old(db.documents)
    ensures user.role != LAWYER ==> reply == Forbidden(description)
    ensures reply.status != 200 ==> db.cases == old(db.cases) && db.notifications == old(db.notifications)
    ensures user.role == LAWYER ==>
      var parsed := ParseStatus(status);
      var guard := LawyerGuard(old(db.cases), caseId, user, "Only the assigned lawyer can update the case status");
      && (parsed.Err? ==> reply == StatusErrorReply(parsed.error))
      && (parsed.Ok? && guard.Some? ==> reply == Reply(403, ErrorMap(guard.value.message)))
      && (parsed.Ok? && guard.None? ==>
            && reply == Reply(200, CaseJson(old(db.cases)[caseId].(status := parsed.value, updatedAt := now)))
            && db.cases == old(db.cases)[caseId := reply.body.c]
            && db.notifications == old(db.notifications) + StatusNotifications(old(db.cases)[caseId], parsed.value))
  {
    if user.role != LAWYER {
      return Forbidden(description);
    }
    var newStatus := ParseStatus(status);
    if newStatus.Err? {
      return StatusErrorReply(newStatus.error);
    }
    var updated := UpdateCaseStatus(db, caseId, newStatus.value, user, now);
    if updated.Err? {
      assert updated.error.Runtime?;
      reply := StatusErrorReply(updated.error);
      assert reply == Reply(403, ErrorMap(updated.error.message));
      return;
    }
    reply := Reply(200, CaseJson(updated.value));
  }

  /** The three fixed-status endpoints. */
  datatype StatusAction = Accept | Reject | Close

  /** The status each fixed-status endpoint asks for. */
  function RequestedStatus(action: StatusAction): (s: Status)
    ensures s == ACTIVE <==> action == Accept
    ensures s != PENDING
  {
    match action
    case Accept => ACTIVE
    case Reject => CLOSED
    case Close => CLOSED
  }

  /** The replies of the two catch clauses of acceptCase, rejectCase and
      closeCase. */
  function ActionErrorReply(action: StatusAction, e: Exception): (r: Reply)
    ensures e.IsRuntime() ==> r == Reply(403, ErrorMap(e.Message()))
    ensures !e.IsRuntime() ==> r.status == 500
  {
    if e.IsRuntime() then Reply(403, ErrorMap(e.Message()))
    else
      var verb := match action case Accept => "accepting" case Reject => "rejecting" case Close => "closing";
      Reply(500, ErrorMap("An unexpected error occurred while " + verb + " the case."))
  }

  /** acceptCase, rejectCase and closeCase: lawyers only; the case moves to
      RequestedStatus(action) from whatever status it had, and the client is
      notified. */
  method StatusActionEndpoint(db: Database, action: StatusAction, caseId: CaseId, user: User, now: Time, description: string)
    returns (reply: Reply)
    requires db.Valid()
    modifies db
    ensures db.Valid()
    ensures db.users == old(db.users) && db.documents == old(db.documents)
    ensures user.role != LAWYER ==> reply == Forbidden(description)
    ensures reply.status != 200 ==> db.cases == old(db.cases) && db.notifications == old(db.notifications)
    ensures user.role == LAWYER ==>
      var guard := LawyerGuard(old(db.cases), caseId, user, "Only the assigned lawyer can update the case status");
      && (guard.Some? ==> reply == Reply(403, ErrorMap(guard.value.message)))
      && (guard.None? ==>
            && reply.status == 200 && reply.body.CaseJson?
            && reply.body.c == old(db.cases)[caseId].(status := RequestedStatus(action), updatedAt := now)
            && db.cases == old(db.cases)[caseId := reply.body.c]
            && |db.notifications| == |old(db.notifications)| + 1
            && db.notifications == old(db.notifications) + StatusNotifications(old(db.cases)[caseId], RequestedStatus(action)))
  {
    if user.role != LAWYER {
      return Forbidden(description);
    }
    var updated := UpdateCaseStatus(db, caseId, RequestedStatus(action), user, now);
    if updated.Err? {
      return ActionErrorReply(action, updated.error);
    }
    reply := Reply(200, CaseJson(updated.value));
  }
}
