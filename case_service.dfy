/** CaseService.java: reading, creating, updating, re-statusing and deleting
    cases, each guarded by who the caller is. The repositories and the
    notification service write to the shared Database; clock and random
    draws are parameters. */
module CaseService {
  import opened Wrappers
  import opened Text
  import opened Errors
  import opened Paging
  import opened Users
  import opened CaseEntity
  import opened Store
  import opened CaseRepository
  import opened Documents

  /** The text of a unique or not-null constraint violation raised by the
      database on save (its exact wording is the driver's). */
  const ConstraintViolation: string := "could not execute statement; constraint violation"

  // ---------------------------------------------------------------------------
  // Guards
  // ---------------------------------------------------------------------------

  /** hasAccessToCase: the caller is the case's lawyer or its client. */
  predicate HasAccessToCase(c: CaseRecord, user: User)
  {
    c.lawyer == user.id || c.client == user.id
  }

  /** The ownership test of updateCase, updateCaseStatus and deleteCase. */
  predicate IsAssignedLawyer(c: CaseRecord, user: User)
  {
    user.role == LAWYER && c.lawyer == user.id
  }

  /** getCaseById: "Case not found" for an unknown id, "Access denied" for a
      caller who is neither lawyer nor client of the case. */
  function GetCaseById(cases: map<CaseId, CaseRecord>, caseId: CaseId, user: User): (r: Result<CaseRecord, Exception>)
    ensures r.Ok? <==> caseId in cases && HasAccessToCase(cases[caseId], user)
    ensures r.Ok? ==> r.value == cases[caseId]
    ensures caseId !in cases ==> r == Err(Runtime("Case not found"))
    ensures caseId in cases && r.Err? ==> r == Err(Runtime("Access denied to this case"))
  {
    if caseId !in cases then Err(Runtime("Case not found"))
    else if !HasAccessToCase(cases[caseId], user) then Err(Runtime("Access denied to this case"))
    else Ok(cases[caseId])
  }

  /** The failure, if any, of getCaseById followed by the assigned-lawyer
      check, with `denial` the message of the latter. Only the case's lawyer,
      logged in as a LAWYER, gets through. */
  function LawyerGuard(cases: map<CaseId, CaseRecord>, caseId: CaseId, user: User, denial: string): (r: Option<Exception>)
    ensures r.None? <==> caseId in cases && IsAssignedLawyer(cases[caseId], user)
    ensures caseId !in cases ==> r == Some(Runtime("Case not found"))
    ensures caseId in cases && HasAccessToCase(cases[caseId], user) && r.Some? ==> r == Some(Runtime(denial))
  {
    match GetCaseById(cases, caseId, user)
    case Err(e) => Some(e)
    case Ok(c) => if IsAssignedLawyer(c, user) then None else Some(Runtime(denial))
  }

  /** The assigned lawyer always passes the ownership test, and a client of
      the case never does, whatever the case's status. */
  lemma LawyerGuardIgnoresStatus(cases: map<CaseId, CaseRecord>, caseId: CaseId, user: User, denial: string, s: Status)
    requires caseId in cases
    ensures LawyerGuard(cases, caseId, user, denial)
         == LawyerGuard(cases[caseId := cases[caseId].(status := s)], caseId, user, denial)
  {
  }

  // ---------------------------------------------------------------------------
  // Listings
  // ---------------------------------------------------------------------------

  /** createPageable's choice of sort, compared case-insensitively; an absent
      or unknown key (including "recent") sorts by updatedAt, latest first. */
  function SortFor(sort: Option<string>): Sort
  {
    if sort.None? then Sort("updatedAt", DESC)
    else
      var key := ToLower(sort.value);
      if key == "name" then Sort("title", ASC)
      else if key == "status" then Sort("status", ASC)
      else Sort("updatedAt", DESC)
  }

  /** Sort keys that differ only in letter case choose the same order:
      "name" sorts by title and "status" by status, both ascending, and every
      other key by updatedAt, latest first. */
  lemma SortForSpec(a: string, b: string)
    requires ToLower(a) == ToLower(b)
    ensures SortFor(Some(a)) == SortFor(Some(b))
    ensures SortFor(Some(a)).direction == ASC <==> ToLower(a) == "name" || ToLower(a) == "status"
    ensures SortFor(Some(a)).property == "title" <==> ToLower(a) == "name"
    ensures ToLower(a) == "status" ==> SortFor(Some(a)) == Sort("status", ASC)
    ensures ToLower(a) != "name" && ToLower(a) != "status" ==> SortFor(Some(a)) == Sort("updatedAt", DESC)
    ensures SortFor(Some("recent")) == SortFor(None) == Sort("updatedAt", DESC)
  {
    assert ToLower("recent") == "recent";
  }

  /** createPageable. */
  function CreatePageable(page: int, size: int, sort: Option<string>): Result<PageRequest, Exception>
  {
    PageRequestOf(page, size, Some(SortFor(sort)))
  }

  /** A page of a listing: the matching cases and the page request that
      slices and orders them. */
  datatype Listing = Listing(matching: set<CaseId>, request: PageRequest)

  /** The message of Enum.valueOf for an unknown constant. */
  function NoEnumConstant(name: string): string
  {
    "No enum constant com.casemate.pro.entity.Case.Status." + name
  }

  /** getCasesByLawyer: a non-empty status is upper-cased and must name a
      constant; an empty or absent one lists every case of the lawyer. */
  function GetCasesByLawyer(cases: map<CaseId, CaseRecord>, lawyer: User, page: int, size: int, status: Option<string>, sort: Option<string>): (r: Result<Listing, Exception>)
    ensures (page < 0 || size < 1) ==> r == Err(PageRequestOf(page, size, None).error)
    ensures 0 <= page && 1 <= size && (status.None? || status.value == "") ==>
      r.Ok? && r.value.matching == ByParty(cases, LawyerSide, lawyer.id)
    ensures status.Some? && status.value != "" && 0 <= page && 1 <= size ==>
      match StatusValueOf(ToUpper(status.value))
      case None => r == Err(IllegalArgument(NoEnumConstant(ToUpper(status.value))))
      case Some(s) => r.Ok? && r.value.matching == ByPartyAndStatus(cases, LawyerSide, lawyer.id, s)
    ensures r.Ok? ==> r.value.request.sort == Some(SortFor(sort))
  {
    match CreatePageable(page, size, sort)
    case Err(e) => Err(e)
    case Ok(pageable) =>
      if status.Some? && status.value != "" then
        match StatusValueOf(ToUpper(status.value))
        case None => Err(IllegalArgument(NoEnumConstant(ToUpper(status.value))))
        case Some(s) => Ok(Listing(ByPartyAndStatus(cases, LawyerSide, lawyer.id, s), pageable))
      else Ok(Listing(ByParty(cases, LawyerSide, lawyer.id), pageable))
  }

  /** The status filter of getCasesByLawyer ignores letter case. */
  lemma GetCasesByLawyerStatusCaseInsensitive(cases: map<CaseId, CaseRecord>, lawyer: User, page: int, size: int, a: string, b: string, sort: Option<string>)
    requires ToLower(a) == ToLower(b)
    ensures GetCasesByLawyer(cases, lawyer, page, size, Some(a), sort) == GetCasesByLawyer(cases, lawyer, page, size, Some(b), sort)
  {
    UpperEqualIffLowerEqual(a, b);
  }

  /** getRecentCasesByLawyer / getRecentCasesByClient: the first page of
      PageRequest.of(0, limit) over the party's cases, latest update first. */
  ghost function GetRecentCases(cases: map<CaseId, CaseRecord>, side: Side, party: User, limit: int): (r: Result<seq<CaseRecord>, Exception>)
    ensures r.Ok? <==> 1 <= limit
    ensures limit < 1 ==> r == Err(IllegalArgument("Page size must not be less than one"))
    ensures r.Ok? ==> IsRecentPage(cases, side, party.id, limit, r.value)
    ensures r.Ok? && CountByParty(cases, side, party.id) <= limit ==>
      forall id :: id in ByParty(cases, side, party.id) ==> cases[id] in r.value
  {
    match PageRequestOf(0, limit, None)
    case Err(e) => Err(e)
    case Ok(pageable) =>
      if CountByParty(cases, side, party.id) <= pageable.size then
        FindRecentComplete(cases, side, party.id, pageable.size);
        Ok(FindRecent(cases, side, party.id, pageable.size))
      else Ok(FindRecent(cases, side, party.id, pageable.size))
  }

  /** getCasesByClient: every case of the client, latest update first. */
  function GetCasesByClient(cases: map<CaseId, CaseRecord>, client: User, page: int, size: int): (r: Result<Listing, Exception>)
    ensures r.Ok? <==> 0 <= page && 1 <= size
    ensures r.Ok? ==> r.value.matching == ByParty(cases, ClientSide, client.id)
    ensures r.Ok? ==> r.value.request.sort == Some(Sort("updatedAt", DESC))
  {
    match PageRequestOf(page, size, Some(Sort("updatedAt", DESC)))
    case Err(e) => Err(e)
    case Ok(pageable) => Ok(Listing(ByParty(cases, ClientSide, client.id), pageable))
  }

  // ---------------------------------------------------------------------------
  // Notifications of a status change
  // ---------------------------------------------------------------------------

  /** What updateCaseStatus sends: one message to the client for CLOSED (worded
      as a rejection) and for ACTIVE (an acceptance), nothing for PENDING. */
  function StatusNotifications(c: CaseRecord, newStatus: Status): (r: seq<Notification>)
    ensures |r| == if newStatus == PENDING then 0 else 1
    ensures forall i :: 0 <= i < |r| ==> r[i].user == c.client
  {
    match newStatus
    case CLOSED => [Notification(c.client, "Your case \"" + c.title + "\" has been rejected by the lawyer.")]
    case ACTIVE => [Notification(c.client, "Your case \"" + c.title + "\" has been accepted by the lawyer.")]
    case PENDING => []
  }

  // ---------------------------------------------------------------------------
  // Saving a new case
  // ---------------------------------------------------------------------------

  /** caseRepository.save of a new entity: the pre-persist hook fills in the
      case number, then the row is inserted unless a NOT NULL column is null
      or the case number is already taken. */
  method SaveNew(db: Database, entity: Case, now: Time, year: nat, random: real) returns (r: Result<CaseRecord, Exception>)
    requires db.Valid()
    requires 0.0 <= random < 1.0
    modifies db, entity`caseNumber
    ensures db.Valid()
    ensures entity.caseNumber == AssignedCaseNumber(old(entity.caseNumber), year, random)
    ensures db.users == old(db.users) && db.documents == old(db.documents)
    ensures db.notifications == old(db.notifications)
    ensures r.Ok? <==>
      && entity.title.Some? && entity.status.Some? && entity.lawyer.Some? && entity.client.Some?
      && !ExistsByCaseNumber(old(db.cases), entity.caseNumber.value)
    ensures r.Err? ==> db.cases == old(db.cases) && r.error == Runtime(ConstraintViolation)
    ensures r.Ok? ==>
      && r.value.id !in old(db.cases)
      && db.cases == old(db.cases)[r.value.id := r.value]
      && r.value == CaseRecord(r.value.id, entity.caseNumber.value, entity.title.value,
                               entity.description, entity.status.value, entity.nextHearing,
                               entity.notes, entity.caseValue, now, now,
                               entity.lawyer.value, entity.client.value)
  {
    entity.GenerateCaseNumber(year, random);
    var number := entity.caseNumber.value;
    if entity.title.None? || entity.status.None? || entity.lawyer.None? || entity.client.None?
       || ExistsByCaseNumber(db.cases, number)
    {
      return Err(Runtime(ConstraintViolation));
    }
    var id := db.nextCaseId;
    var row := CaseRecord(id, number, entity.title.value, entity.description, entity.status.value,
                          entity.nextHearing, entity.notes, entity.caseValue, now, now,
                          entity.lawyer.value, entity.client.value);
    CasesWellFormedInsert(db.cases, id, row);
    db.cases := db.cases[id := row];
    db.nextCaseId := id + 1;
    r := Ok(row);
  }

  // ---------------------------------------------------------------------------
  // Operations that change the store
  // ---------------------------------------------------------------------------

  /** createCase: looks up the lawyer, builds a new PENDING case owned by the
      caller as client, copies title and description, and nextHearing and
      caseValue when they are set, and saves it. */
  method CreateCase(db: Database, caseData: Case, client: User, lawyerId: UserId, now: Time, year: nat, random: real)
    returns (r: Result<CaseRecord, Exception>)
    requires db.Valid()
    requires 0.0 <= random < 1.0
    modifies db
    ensures db.Valid()
    ensures db.users == old(db.users) && db.documents == old(db.documents)
    ensures db.notifications == old(db.notifications)
    ensures lawyerId !in db.users ==> r == Err(Runtime("Lawyer not found"))
    ensures r.Ok? <==>
      && lawyerId in db.users && caseData.title.Some?
      && !ExistsByCaseNumber(old(db.cases), CaseNumberFor(year, DrawNumber(random)))
    ensures r.Err? ==> db.cases == old(db.cases)
    ensures r.Ok? ==>
      && r.value.id !in old(db.cases)
      && db.cases == old(db.cases)[r.value.id := r.value]
      && r.value.status == PENDING
      && r.value.client == client.id && r.value.lawyer == lawyerId
      && r.value.title == caseData.title.value && r.value.description == caseData.description
      && r.value.nextHearing == caseData.nextHearing && r.value.caseValue == caseData.caseValue
      && r.value.notes == None
      && r.value.createdAt == now && r.value.updatedAt == now
      && ParseCaseNumber(r.value.caseNumber) == Some((year, DrawNumber(random)))
  {
    if lawyerId !in db.users {
      return Err(Runtime("Lawyer not found"));
    }
    var managedLawyer := db.users[lawyerId];
    var newCase := NewCaseFrom(caseData, client.id, managedLawyer.id);
    r := SaveNew(db, newCase, now, year, random);
  }

  /** The entity createCase builds before saving it. */
  method NewCaseFrom(caseData: Case, client: UserId, lawyer: UserId) returns (newCase: Case)
    ensures fresh(newCase)
    ensures newCase.caseNumber == None && newCase.notes == None
    ensures newCase.title == caseData.title && newCase.description == caseData.description
    ensures newCase.client == Some(client) && newCase.lawyer == Some(lawyer)
    ensures newCase.status == Some(PENDING)
    ensures newCase.nextHearing == caseData.nextHearing && newCase.caseValue == caseData.caseValue
  {
    newCase := new Case();
    newCase.title := caseData.title;
    newCase.description := caseData.description;
    newCase.client := Some(client);
    newCase.lawyer := Some(lawyer);
    newCase.status := Some(PENDING);
    if caseData.nextHearing.Some? {
      newCase.nextHearing := caseData.nextHearing;
    }
    if caseData.caseValue.Some? {
      newCase.caseValue := caseData.caseValue;
    }
  }

  /** updateCase's new row: title, description, status, nextHearing and notes
      are overwritten where the update object has them; the update time is
      set; nothing else changes. */
  function ApplyCaseUpdate(c: CaseRecord, title: Option<string>, description: Option<string>, status: Option<Status>,
                           nextHearing: Option<Time>, notes: Option<string>, now: Time): CaseRecord
  {
    c.(title := if title.Some? then title.value else c.title,
       description := if description.Some? then description else c.description,
       status := if status.Some? then status.value else c.status,
       nextHearing := if nextHearing.Some? then nextHearing else c.nextHearing,
       notes := if notes.Some? then notes else c.notes,
       updatedAt := now)
  }

  /** An update keeps the identity, number, parties, value and creation time
      of the case, and a field the update leaves null keeps its value. */
  lemma ApplyCaseUpdateKeeps(c: CaseRecord, title: Option<string>, description: Option<string>, status: Option<Status>,
                             nextHearing: Option<Time>, notes: Option<string>, now: Time)
    ensures var u := ApplyCaseUpdate(c, title, description, status, nextHearing, notes, now);
      && u.id == c.id && u.caseNumber == c.caseNumber && u.lawyer == c.lawyer && u.client == c.client
      && u.caseValue == c.caseValue && u.createdAt == c.createdAt && u.updatedAt == now
      && (title.None? ==> u.title == c.title) && (status.None? ==> u.status == c.status)
      && (description.None? ==> u.description == c.description)
      && (nextHearing.None? ==> u.nextHearing == c.nextHearing) && (notes.None? ==> u.notes == c.notes)
      && (status.Some? ==> u.status == status.value)
  {
  }

  /** updateCase: only the assigned lawyer may update; the row becomes
      ApplyCaseUpdate of the update object's fields. */
  method UpdateCase(db: Database, caseId: CaseId, updateData: Case, user: User, now: Time)
    returns (r: Result<CaseRecord, Exception>)
    requires db.Valid()
    modifies db
    ensures db.Valid()
    ensures db.users == old(db.users) && db.documents == old(db.documents)
    ensures db.notifications == old(db.notifications)
    ensures var guard := LawyerGuard(old(db.cases), caseId, user, "Only the assigned lawyer can update this case");
      && (r.Err? <==> guard.Some?)
      && (r.Err? ==> r.error == guard.value && db.cases == old(db.cases))
    ensures r.Ok? ==>
      && r.value == ApplyCaseUpdate(old(db.cases)[caseId], updateData.title, updateData.description,
                                    updateData.status, updateData.nextHearing, updateData.notes, now)
      && db.cases == old(db.cases)[caseId := r.value]
  {
    var found := GetCaseById(db.cases, caseId, user);
    if found.Err? {
      return Err(found.error);
    }
    var existing := found.value;
    if user.role != LAWYER || existing.lawyer != user.id {
      return Err(Runtime("Only the assigned lawyer can update this case"));
    }
    existing := ApplyCaseUpdate(existing, updateData.title, updateData.description, updateData.status,
                                updateData.nextHearing, updateData.notes, now);
    CasesWellFormedReplace(db.cases, db.nextCaseId, caseId, existing);
    db.cases := db.cases[caseId := existing];
    r := Ok(existing);
  }

  /** updateCaseStatus: only the assigned lawyer may change the status; any
      status may follow any other; the status is set to exactly newStatus and
      the client is notified of an acceptance or a closing. */
  method UpdateCaseStatus(db: Database, caseId: CaseId, newStatus: Status, user: User, now: Time)
    returns (r: Result<CaseRecord, Exception>)
    requires db.Valid()
    modifies db
    ensures db.Valid()
    ensures db.users == old(db.users) && db.documents == old(db.documents)
    ensures var guard := LawyerGuard(old(db.cases), caseId, user, "Only the assigned lawyer can update the case status");
      && (r.Err? <==> guard.Some?)
      && (r.Err? ==> r.error == guard.value && db.cases == old(db.cases) && db.notifications == old(db.notifications))
    ensures r.Ok? ==>
      && r.value == old(db.cases)[caseId].(status := newStatus, updatedAt := now)
      && db.cases == old(db.cases)[caseId := r.value]
      && db.notifications == old(db.notifications) + StatusNotifications(old(db.cases)[caseId], newStatus)
  {
    var found := GetCaseById(db.cases, caseId, user);
    if found.Err? {
      return Err(found.error);
    }
    var existing := found.value;
    if user.role != LAWYER || existing.lawyer != user.id {
      return Err(Runtime("Only the assigned lawyer can update the case status"));
    }
    var updated := existing.(status := newStatus, updatedAt := now);
    db.notifications := db.notifications + StatusNotifications(existing, newStatus);
    CasesWellFormedReplace(db.cases, db.nextCaseId, caseId, updated);
    db.cases := db.cases[caseId := updated];
    r := Ok(updated);
  }

  /** The documents that remain when a case is removed: the cascade on
      Case.documents removes that case's documents with it. */
  function DocumentsWithoutCase(documents: map<DocId, DocumentRecord>, caseId: CaseId): (r: map<DocId, DocumentRecord>)
    ensures forall d :: d in r <==> d in documents && documents[d].caseId != caseId
    ensures forall d :: d in r ==> r[d] == documents[d]
  {
    map d | d in documents && documents[d].caseId != caseId :: documents[d]
  }

  /** deleteCase: only the assigned lawyer may delete; the case and its
      documents go, everything else stays. */
  method DeleteCase(db: Database, caseId: CaseId, user: User) returns (r: Outcome<Exception>)
    requires db.Valid()
    modifies db
    ensures db.Valid()
    ensures db.users == old(db.users) && db.notifications == old(db.notifications)
    ensures var guard := LawyerGuard(old(db.cases), caseId, user, "Only the assigned lawyer can delete this case");
      && (r.Fail? <==> guard.Some?)
      && (r.Fail? ==> r.error == guard.value && db.cases == old(db.cases) && db.documents == old(db.documents))
    ensures r.Pass? ==>
      && caseId in old(db.cases) && db.cases == old(db.cases) - {caseId}
      && db.documents == DocumentsWithoutCase(old(db.documents), caseId)
  {
    var found := GetCaseById(db.cases, caseId, user);
    if found.Err? {
      return Fail(found.error);
    }
    var caseEntity := found.value;
    if user.role != LAWYER || caseEntity.lawyer != user.id {
      return Fail(Runtime("Only the assigned lawyer can delete this case"));
    }
    db.documents := DocumentsWithoutCase(db.documents, caseId);
    db.cases := db.cases - {caseId};
    r := Pass;
  }

  // ---------------------------------------------------------------------------
  // generateUniqueCaseNumber
  // ---------------------------------------------------------------------------

  /** The candidate number of the i-th attempt. */
  function Candidate(year: nat, draws: seq<real>, i: nat): string
    requires i < |draws| && 0.0 <= draws[i] < 1.0
  {
    CaseNumberFor(year, DrawNumber(draws[i]))
  }

  /** generateUniqueCaseNumber draws numbers until one is unused. The i-th
      attempt uses draws[i]; where the source would go on drawing forever,
      the model runs out of draws and answers None. */
  method GenerateUniqueCaseNumber(cases: map<CaseId, CaseRecord>, year: nat, draws: seq<real>) returns (r: Option<string>)
    requires forall i :: 0 <= i < |draws| ==> 0.0 <= draws[i] < 1.0
    ensures r.Some? ==> !ExistsByCaseNumber(cases, r.value)
    ensures r.Some? ==> exists i :: 0 <= i < |draws| && r.value == Candidate(year, draws, i)
                          && forall j :: 0 <= j < i ==> ExistsByCaseNumber(cases, Candidate(year, draws, j))
    ensures r.None? <==> forall i :: 0 <= i < |draws| ==> ExistsByCaseNumber(cases, Candidate(year, draws, i))
  {
    var i := 0;
    while i < |draws|
      invariant 0 <= i <= |draws|
      invariant forall j :: 0 <= j < i ==> ExistsByCaseNumber(cases, Candidate(year, draws, j))
    {
      var caseNumber := CaseNumberFor(year, DrawNumber(draws[i]));
      if !ExistsByCaseNumber(cases, caseNumber) {
        assert caseNumber == Candidate(year, draws, i);
        return Some(caseNumber);
      }
      i := i + 1;
    }
    r := None;
  }
}
