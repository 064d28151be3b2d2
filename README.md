# CaseMate case-management backend: a Dafny model

This project models the domain layer of CaseMate (also "LawLynk"), a Spring Boot
back end where lawyers and clients share legal cases and their documents.

Cases move between the statuses PENDING, ACTIVE and CLOSED. A new case is
always PENDING and carries a number of the form `CS-<year>-<nnn>`. Only the
case's lawyer or its client may read a case or its documents. Only the
assigned lawyer may update, re-status or delete it.

The modules follow the Java packages:

- Entities:
  - `CaseEntity`: `Case.java`. The persisted row is `CaseRecord`. The object that is built step by step before saving is the class `Case`.
  - `Users`, `Documents`.
- `Store`: the tables the services share, as the class `Database`, with its schema invariants (unique emails and case numbers, documents pointing at stored cases).
- Repositories: `CaseRepository`, `DocumentRepository`, `UserRepository`. Their JPQL queries are functions of the tables.
- Services:
  - `CaseService`, `DocumentService`, `UserService`: their operations are methods on `Database`. Each is proved against specification functions, such as `GetCaseById`, `LawyerGuard`, `ApplyCaseUpdate` and `UploadFailure`.
  - `ClientService` and `DashboardService`: pure queries.
- Controllers:
  - `CaseController`: status codes and JSON bodies, including the effect of `@PreAuthorize`.
  - `ExceptionHandler`: `GlobalExceptionHandler.java`.
  - `RegisterRequest`: the sign-up body, its Bean Validation constraints and its role parsing.
  - `Json`: how Jackson fills an object from a body.
- `ClientCases`: the one front-end helper, `formatLastUpdated`, and the case-card labels of `ClientCases.tsx`.
- Shared helpers:
  - `Text`: the `java.lang.String` operations used.
  - `Paging`: `PageRequest.of`.
  - `Errors`: the exception kinds.
  - `Wrappers`: Option, Result and Outcome.

How the model stands in for the runtime:

- UUID keys are natural numbers.
- `LocalDateTime` is a count of seconds on one time line. The front end works in milliseconds.
- The clock (`LocalDateTime.now()`, `Year.now()`), `Math.random()`, `UUID.randomUUID()`, the password encoder, `LocalDateTime.parse`, `UUID.fromString`, the `@Email` address grammar and the date formatter are parameters.
- A failed `@Transactional` service call changes nothing.
- Every exception a service throws is a `Result`/`Outcome` error carrying the exact message text of the source.

## Model

| member | source | states |
|---|---|---|
| `Text.LastIndexOf` | backend/src/main/java/com/casemate/pro/service/DocumentService.java:155-158 | -1 exactly when the character is absent; otherwise the position of its last occurrence |
| `Text.UpperEqualIffLowerEqual` | backend/src/main/java/com/casemate/pro/service/CaseService.java:31 | two strings agree after toUpperCase exactly when they agree after toLowerCase |
| `Text.ContainsIffOccurs` | backend/src/main/java/com/casemate/pro/repository/UserRepository.java:27-30 | the `LIKE '%s%'` scan succeeds exactly when the search occurs at some position |
| `Text.TrimSpec` | backend/src/main/java/com/casemate/pro/service/ClientService.java:27 | trim gives a slice of the input with no blank at either end, empty exactly when every character is at most U+0020 |
| `Text.TrimPadded` | backend/src/main/java/com/casemate/pro/service/ClientService.java:27-28 | a blank on each side of the search does not change the trimmed search |
| `Text.RemoveAllAbsent` | backend/src/main/java/com/casemate/pro/exception/GlobalExceptionHandler.java:25 | `replace("uri=", "")` leaves a text without "uri=" unchanged |
| `Text.NatToStringRoundTrip` | backend/src/main/java/com/casemate/pro/entity/Case.java:78 | the decimal text of the year reads back as the year |
| `Text.Pad3RoundTrip` | backend/src/main/java/com/casemate/pro/entity/Case.java:79 | `%03d` of a serial below 1000 is three digits that read back as the serial |
| `Text.Utf16Length` | backend/src/main/java/com/casemate/pro/service/UserService.java:76 | String.length counts UTF-16 units: between the character count and twice it, equal to it exactly when no character is astral |
| `Text.Utf16LengthExamples` | backend/src/main/java/com/casemate/pro/dto/RegisterRequest.java:16 | three emoji pass a six-unit minimum, as six Latin letters do |
| `Paging.PageRequestOf` | backend/src/main/java/com/casemate/pro/service/CaseService.java:194 | succeeds exactly for page >= 0 and size >= 1, keeping page, size and sort; otherwise an IllegalArgumentException |
| `CaseEntity.StatusNamesRoundTrip` | backend/src/main/java/com/casemate/pro/entity/Case.java:70-72 | `Status.valueOf` accepts exactly the three names `name()` produces and returns that constant |
| `CaseEntity.DrawNumber` | backend/src/main/java/com/casemate/pro/entity/Case.java:79 | `(int)(Math.random() * 1000)` lies in 0..999 |
| `CaseEntity.CaseNumberRoundTrip` | backend/src/main/java/com/casemate/pro/entity/Case.java:78-79 | a generated number starts with "CS-", is 7 characters longer than the year, and parses back to its year and serial |
| `CaseEntity.CaseNumberInjective` | backend/src/main/java/com/casemate/pro/entity/Case.java:78-79 | two generated numbers are equal only when year and serial are |
| `CaseEntity.AssignedCaseNumber` | backend/src/main/java/com/casemate/pro/entity/Case.java:75-81 | after the pre-persist hook a number is always present: the existing one kept, or a new one reading back as (year, draw) |
| `CaseEntity.AssignedCaseNumberIdempotent` | backend/src/main/java/com/casemate/pro/entity/Case.java:77 | running the hook again, with any year and draw, changes nothing |
| `CaseEntity.Case.constructor` | backend/src/main/java/com/casemate/pro/entity/Case.java:38 | a new Case has every field null except status, which is PENDING |
| `CaseEntity.Case.GenerateCaseNumber` | backend/src/main/java/com/casemate/pro/entity/Case.java:75-81 | the case number becomes AssignedCaseNumber of the old one; nothing else changes |
| `CaseRepository.ByPartyAndStatusSpec` | backend/src/main/java/com/casemate/pro/repository/CaseRepository.java:22-30 | the status queries select exactly the party's cases that have that status |
| `CaseRepository.StatusCountsPartition` | backend/src/main/java/com/casemate/pro/repository/CaseRepository.java:32-54 | the ACTIVE, PENDING and CLOSED counts of a lawyer (or client) add up to the total count |
| `CaseRepository.FindRecent` | backend/src/main/java/com/casemate/pro/repository/CaseRepository.java:56-60 | a recent page: min(limit, party case count) of the party's cases, latest update first, no case left out updated later than a row, and no case twice |
| `CaseRepository.FindRecentComplete` | backend/src/main/java/com/casemate/pro/repository/CaseRepository.java:56-60 | a page at least as large as the party's case count holds every one of its cases |
| `CaseRepository.RecentComplete` | backend/src/main/java/com/casemate/pro/repository/CaseRepository.java:56-60 | when the page holds at least as many ids as the party has, every one of them is picked |
| `CaseRepository.RowsOfRecentPage` | backend/src/main/java/com/casemate/pro/repository/CaseRepository.java:56-60 | the rows of the picked ids satisfy every clause of a recent page |
| `CaseService.GetCaseById` | backend/src/main/java/com/casemate/pro/service/CaseService.java:54-72 | succeeds exactly for a stored case whose lawyer or client is the caller; else "Case not found" or "Access denied to this case" |
| `CaseService.LawyerGuard` | backend/src/main/java/com/casemate/pro/service/CaseService.java:99-103 | passes exactly the case's own lawyer with role LAWYER; else the lookup's error or the denial message |
| `CaseService.LawyerGuardIgnoresStatus` | backend/src/main/java/com/casemate/pro/service/CaseService.java:118-122 | the ownership check does not depend on the case's status, so any status may follow any other |
| `CaseService.SortForSpec` | backend/src/main/java/com/casemate/pro/service/CaseService.java:172-195 | the key ignores letter case; "name" sorts by title ascending, "status" by status ascending, "recent", an absent key and any other key by updatedAt descending |
| `CaseService.GetCasesByLawyer` | backend/src/main/java/com/casemate/pro/service/CaseService.java:27-36 | a bad page or size fails with PageRequest's message; otherwise an empty or absent status lists all the lawyer's cases, and another status lists that status's cases when it names a constant once upper-cased, else fails with "No enum constant ..." |
| `CaseService.GetCasesByLawyerStatusCaseInsensitive` | backend/src/main/java/com/casemate/pro/service/CaseService.java:30-32 | status filters differing only in letter case give the same listing |
| `CaseService.GetRecentCases` | backend/src/main/java/com/casemate/pro/service/CaseService.java:43-51 | a limit below one fails with "Page size must not be less than one"; otherwise a recent page of the party's cases of that size, holding all of them when they fit |
| `CaseService.GetCasesByClient` | backend/src/main/java/com/casemate/pro/service/CaseService.java:38-41 | all of the client's cases, sorted by updatedAt descending; fails only on a bad page request |
| `CaseService.StatusNotifications` | backend/src/main/java/com/casemate/pro/service/CaseService.java:127-141 | one notification to the client for ACTIVE or CLOSED, none for PENDING |
| `CaseService.SaveNew` | backend/src/main/java/com/casemate/pro/service/CaseService.java:94 | runs the number hook, then inserts the row under a fresh id unless a NOT NULL column is null or the number is taken; otherwise no change |
| `CaseService.CreateCase` | backend/src/main/java/com/casemate/pro/service/CaseService.java:75-95 | "Lawyer not found" for an unknown lawyer; else a fresh PENDING case of the caller with the given lawyer, title, description, hearing and value |
| `CaseService.NewCaseFrom` | backend/src/main/java/com/casemate/pro/service/CaseService.java:79-92 | the entity createCase fills in: copied title and description, caller as client, PENDING, hearing and value when set |
| `CaseService.ApplyCaseUpdateKeeps` | backend/src/main/java/com/casemate/pro/service/CaseService.java:105-111 | an update keeps id, number, parties, value and creation time; a null field keeps its value; updatedAt becomes now |
| `CaseService.UpdateCase` | backend/src/main/java/com/casemate/pro/service/CaseService.java:98-114 | fails with no change unless the caller is the assigned lawyer; otherwise the row becomes ApplyCaseUpdate of the update object |
| `CaseService.UpdateCaseStatus` | backend/src/main/java/com/casemate/pro/service/CaseService.java:117-144 | assigned lawyer only; sets exactly the new status and time and appends StatusNotifications; a failure changes nothing |
| `CaseService.DocumentsWithoutCase` | backend/src/main/java/com/casemate/pro/entity/Case.java:66 | the cascade keeps exactly the documents of other cases, unchanged |
| `CaseService.DeleteCase` | backend/src/main/java/com/casemate/pro/service/CaseService.java:147-155 | assigned lawyer only; removes the case and its documents, and nothing else |
| `CaseService.GenerateUniqueCaseNumber` | backend/src/main/java/com/casemate/pro/service/CaseService.java:162-170 | answers the first candidate not in use, after every earlier one was taken; none only when every draw collides |
| `CaseController.Forbidden` | backend/src/main/java/com/casemate/pro/controller/CaseController.java:118 | a non-lawyer is answered 403 with the access-denied text |
| `CaseController.WrapInt` | backend/src/main/java/com/casemate/pro/controller/CaseController.java:49 | Java int arithmetic: in range, unchanged inside the range, congruent modulo 2^32 |
| `CaseController.GetCases` | backend/src/main/java/com/casemate/pro/controller/CaseController.java:29-56 | 200 exactly for a valid page and a valid lawyer status filter, with the listing by role (all the lawyer's cases, or those of the named status), limit = size and offset = int page * size; a bad page or size gets 400 with PageRequest's message, a bad status 400 with "No enum constant ..." |
| `CaseController.GetRecentCasesEndpoint` | backend/src/main/java/com/casemate/pro/controller/CaseController.java:211-228 | a lawyer's recent cases as lawyer, anyone else's as client; limit 5 by default; 200 with a recent page exactly when the limit is at least one, else 400 with PageRequest's message |
| `CaseController.ClientListingIgnoresFilters` | backend/src/main/java/com/casemate/pro/controller/CaseController.java:41-42 | a client's listing does not depend on the status or sort parameters |
| `CaseController.GetCasesOffset` | backend/src/main/java/com/casemate/pro/controller/CaseController.java:49 | the offset is page * size when it fits in an int, and wraps to -2^31 for page 65536 and size 32768 |
| `CaseController.CreateCaseInputs` | backend/src/main/java/com/casemate/pro/controller/CaseController.java:77-107 | null lawyer map, unparseable non-empty date, null or malformed UUID fail in that order; a non-number caseValue is dropped |
| `CaseController.CreateCaseInputsLenient` | backend/src/main/java/com/casemate/pro/controller/CaseController.java:91-104 | a non-number caseValue behaves as none; an empty nextHearing is not parsed |
| `CaseController.CreateCaseEndpoint` | backend/src/main/java/com/casemate/pro/controller/CaseController.java:71-115 | every failure is 400 with its message and no change; success is 200 with the new PENDING case built from the request |
| `CaseController.TitleOnlyUpdateResetsStatus` | backend/src/main/java/com/casemate/pro/controller/CaseController.java:119 | as written, a body without "status" resets an ACTIVE or CLOSED case to PENDING |
| `CaseController.UpdateKeepsStatusUnlessGiven` | backend/src/main/java/com/casemate/pro/service/CaseService.java:105-109 | with the intended reading, the status changes only when the body names one; the title likewise |
| `CaseController.ReadUpdateBody` | backend/src/main/java/com/casemate/pro/controller/CaseController.java:119 | the update object holds the members the body names; a body without "status" keeps the initializer PENDING of `new Case()` |
| `CaseController.UpdateCaseEndpoint` | backend/src/main/java/com/casemate/pro/controller/CaseController.java:117-128 | 403 for a non-lawyer; 400 with the guard's message; else 200 with the updated row, stored; as written, a body without "status" puts the case back to PENDING |
| `CaseController.ParseStatus` | backend/src/main/java/com/casemate/pro/controller/CaseController.java:135 | accepts a status name in any letter case; a missing status is a NullPointerException, any other text an IllegalArgumentException |
| `CaseController.UpperOfStatusName` | backend/src/main/java/com/casemate/pro/entity/Case.java:70-72 | the constant names are upper case already |
| `CaseController.StatusErrorReply` | backend/src/main/java/com/casemate/pro/controller/CaseController.java:138-147 | IllegalArgument gives 400 "Invalid case status provided."; another runtime exception 403 with its message; else 500 |
| `CaseController.UpdateCaseStatusEndpoint` | backend/src/main/java/com/casemate/pro/controller/CaseController.java:130-148 | 403 for a non-lawyer; a bad status is answered before the service runs; success stores the status and notifies; failure changes nothing |
| `CaseController.RequestedStatus` | backend/src/main/java/com/casemate/pro/controller/CaseController.java:155 | accept asks for ACTIVE; reject and close ask for CLOSED; none asks for PENDING |
| `CaseController.ActionErrorReply` | backend/src/main/java/com/casemate/pro/controller/CaseController.java:157-163 | a runtime exception gives 403 with its message; anything else 500 |
| `CaseController.StatusActionEndpoint` | backend/src/main/java/com/casemate/pro/controller/CaseController.java:150-196 | 403 for a non-lawyer; from any status the case moves to the requested one and exactly one notification is added |
| `DocumentRepository.UserAccessSplit` | backend/src/main/java/com/casemate/pro/repository/DocumentRepository.java:25-26 | the access query is the union of the lawyer-side and client-side selections, so it is at most their two counts together |
| `DocumentRepository.CaseAndSearchSpec` | backend/src/main/java/com/casemate/pro/repository/DocumentRepository.java:28-33 | a search only narrows the case's documents, the empty search keeps them all, and letter case is ignored |
| `DocumentService.GetFileExtension` | backend/src/main/java/com/casemate/pro/service/DocumentService.java:154-159 | "unknown" for a null name or one without a dot; otherwise a dot-free text shorter than the name |
| `DocumentService.FileExtensionOf` | backend/src/main/java/com/casemate/pro/service/DocumentService.java:158 | for base + "." + ext with a dot-free ext, the extension is ext lower-cased, whatever dots base holds |
| `DocumentService.FileExtensionExamples` | backend/src/main/java/com/casemate/pro/service/DocumentService.java:154-159 | "a.tar.GZ" gives "gz", "x." gives "", "README" gives "unknown" |
| `DocumentService.GetDocuments` | backend/src/main/java/com/casemate/pro/service/DocumentService.java:32-47 | the page request is checked first; with a case id, that case's documents for a caller with access; without one, the caller's own uploads |
| `DocumentService.GetDocumentsByCase` | backend/src/main/java/com/casemate/pro/service/DocumentService.java:49-58 | succeeds exactly for a stored case the caller may access, with that case's documents |
| `DocumentService.ListingsAgree` | backend/src/main/java/com/casemate/pro/service/DocumentService.java:35-57 | the paged and the unpaged listing of a case select the same documents and fail alike |
| `DocumentService.GetDocumentById` | backend/src/main/java/com/casemate/pro/service/DocumentService.java:107-116 | succeeds exactly for a stored document whose case the caller may access; else "Document not found" or "Access denied to this document" |
| `DocumentService.UploadFailure` | backend/src/main/java/com/casemate/pro/service/DocumentService.java:72-104 | no failure exactly when the case is accessible, the copy succeeds and name and category are present; a copy failure reads "Failed to upload file: ..." |
| `DocumentService.UploadSingleFile` | backend/src/main/java/com/casemate/pro/service/DocumentService.java:60-105 | on success the record of name, stored path, extension, size, description, category, case and uploader is added under a fresh id; on failure nothing changes |
| `DocumentService.UploadMultipleDocuments` | backend/src/main/java/com/casemate/pro/service/DocumentService.java:64-70 | one record per file in input order when all succeed; on a failure, the records before it stay saved |
| `DocumentService.ClientMayReadNotDelete` | backend/src/main/java/com/casemate/pro/service/DocumentService.java:111-123 | a client of the case who did not upload a document may read it but not delete it |
| `DocumentService.DeleteDocument` | backend/src/main/java/com/casemate/pro/service/DocumentService.java:118-136 | removes the record exactly when the caller may read it and is its uploader or the case's lawyer; otherwise the first failing check's message, no change |
| `UserRepository.FindByEmail` | backend/src/main/java/com/casemate/pro/repository/UserRepository.java:18 | finds the stored user with that email, or reports that none has it |
| `UserRepository.ExistsIffFound` | backend/src/main/java/com/casemate/pro/repository/UserRepository.java:18-20 | existsByEmail holds exactly when findByEmail finds someone, and that user is the only one with the email |
| `UserRepository.ClientQueriesAgree` | backend/src/main/java/com/casemate/pro/repository/UserRepository.java:22-33 | the 'CLIENT' queries equal the role query; a search only narrows them, the empty search keeps all, and letter case is ignored |
| `UserService.OwnProfile` | backend/src/main/java/com/casemate/pro/service/UserService.java:23-29 | succeeds exactly when the user exists and has the authenticated email; else "User not found" or the denial |
| `UserService.GetUserById` | backend/src/main/java/com/casemate/pro/service/UserService.java:85-95 | the caller's own profile, else "User not found" or "Unauthorized: You can only view your own profile" |
| `UserService.ApplyProfileKeeps` | backend/src/main/java/com/casemate/pro/service/UserService.java:40-54 | a profile update never touches id, role or password hash; a null field keeps its value; an all-null update changes nothing |
| `UserService.ReplaceUserKeepsEmailsUnique` | backend/src/main/java/com/casemate/pro/service/UserService.java:32-36 | replacing a user by one whose email no other user holds keeps emails unique |
| `UserService.UpdateUserProfile` | backend/src/main/java/com/casemate/pro/service/UserService.java:21-57 | a new email taken by anyone else fails with "Email is already taken"; every failure changes nothing; success stores the updated profile |
| `UserService.PasswordChangeFailure` | backend/src/main/java/com/casemate/pro/service/UserService.java:60-78 | no failure exactly for the caller's own account, a non-null matching current password and a new password of at least 6 UTF-16 units; a null current password fails with BCrypt's "rawPassword cannot be null" |
| `UserService.ChangePassword` | backend/src/main/java/com/casemate/pro/service/UserService.java:60-83 | on success only the password hash changes, to the encoding of the new password; on failure, including a null current password, nothing changes |
| `ClientService.GetAllClients` | backend/src/main/java/com/casemate/pro/service/ClientService.java:24-32 | sorted by name; a null or blank search lists every client, another is trimmed and matched; the result stays within the clients |
| `ClientService.BlankSearchListsAll` | backend/src/main/java/com/casemate/pro/service/ClientService.java:27-31 | a search made only of blanks lists the same as no search; blanks around a search change nothing |
| `ClientService.GetClientById` | backend/src/main/java/com/casemate/pro/service/ClientService.java:34-43 | succeeds exactly for a stored client; "Client not found" or "User is not a client" otherwise |
| `ClientService.GetTotalClientsCount` | backend/src/main/java/com/casemate/pro/service/ClientService.java:45-47 | the number of users with role CLIENT |
| `RegisterRequest.ReadRegisterRequest` | backend/src/main/java/com/casemate/pro/dto/RegisterRequest.java:24 | a body without "role" asks for "CLIENT"; an explicit null stays null |
| `RegisterRequest.GetRoleEnum` | backend/src/main/java/com/casemate/pro/dto/RegisterRequest.java:26-32 | LAWYER exactly for "lawyer" in any letter case; CLIENT for any other text; a null role is an uncaught NullPointerException |
| `RegisterRequest.GetRoleEnumSpec` | backend/src/main/java/com/casemate/pro/dto/RegisterRequest.java:24-31 | role names differing only in case give the same role; the default registers a client; "Lawyer" gives LAWYER and "judge" CLIENT |
| `RegisterRequest.Violations` | backend/src/main/java/com/casemate/pro/dto/RegisterRequest.java:11-20 | each constraint is broken exactly when its annotation rejects the field, @Size counting UTF-16 units; @Email and @Size accept null |
| `RegisterRequest.ValidRequest` | backend/src/main/java/com/casemate/pro/dto/RegisterRequest.java:11-20 | a body with no violations has a well-formed email, a non-blank password of 6 or more UTF-16 units (so at least 3 characters) and a non-blank name; phone and role are unconstrained |
| `ExceptionHandler.StripUriOfRequest` | backend/src/main/java/com/casemate/pro/exception/GlobalExceptionHandler.java:25 | the reported path of "uri=" + path is path, and a path without "uri=" is kept |
| `ExceptionHandler.CollectDetails` | backend/src/main/java/com/casemate/pro/exception/GlobalExceptionHandler.java:66-70 | one "field: message" line per field error, in order |
| `ExceptionHandler.Handle` | backend/src/main/java/com/casemate/pro/exception/GlobalExceptionHandler.java:19-111 | 404 for not found, 403 for unauthorized or access denied, 401 for bad credentials, 400 for validation, illegal-argument and runtime errors, 500 otherwise; the reason phrase matches the status; the path has "uri=" removed |
| `ExceptionHandler.FixedMessages` | backend/src/main/java/com/casemate/pro/exception/GlobalExceptionHandler.java:41-61 | bad credentials, access denied and other exceptions are answered with a fixed text whatever their own message says |
| `ExceptionHandler.ValidationDetailsInOrder` | backend/src/main/java/com/casemate/pro/exception/GlobalExceptionHandler.java:63-78 | a validation failure lists one detail per field error, in the errors' order |
| `DashboardService.FormatActivityTime` | backend/src/main/java/com/casemate/pro/service/DashboardService.java:182-198 | by elapsed seconds: under an hour (or in the future) "Just now", then "1 hour ago" / "N hours ago", "Yesterday", "N days ago" under a week, else the formatted date |
| `DashboardService.FutureIsJustNow` | backend/src/main/java/com/casemate/pro/service/DashboardService.java:184-188 | any future moment reads "Just now" |
| `DashboardService.HoursTextNamesHours` | backend/src/main/java/com/casemate/pro/service/DashboardService.java:190 | equal "N hours ago" texts mean the same number of whole hours |
| `DashboardService.ActivityFor` | backend/src/main/java/com/casemate/pro/service/DashboardService.java:149-177 | a hearing ahead gives "hearing" ("Just now"), else CLOSED "Case Closed", ACTIVE "Case Updated", PENDING "New Case"; id and case number copied |
| `DashboardService.ActivitiesOf` | backend/src/main/java/com/casemate/pro/service/DashboardService.java:148-179 | one activity per case, in the cases' order |
| `DashboardService.GetRecentActivities` | backend/src/main/java/com/casemate/pro/service/DashboardService.java:138-180 | one activity per row of the user's recent page of 10 on the side their role selects, in the page's order |
| `DashboardService.UpcomingCount` | backend/src/main/java/com/casemate/pro/service/DashboardService.java:133-135 | the number of row positions whose hearing is after now |
| `DashboardService.UpcomingCountAntitone` | backend/src/main/java/com/casemate/pro/service/DashboardService.java:134 | looking later never counts more hearings ahead |
| `DashboardService.CountUpcomingAppointments` | backend/src/main/java/com/casemate/pro/service/DashboardService.java:130-136 | the rows of the client's recent page of 100 with a hearing ahead; with at most 100 cases, the client's cases with a hearing ahead |
| `DashboardService.HearingsAheadOfCompletePage` | backend/src/main/java/com/casemate/pro/service/DashboardService.java:130-136 | with every client case on the page, rows with a hearing ahead are as many as the client's cases with one |
| `DashboardService.HearingsAheadOfIds` | backend/src/main/java/com/casemate/pro/service/DashboardService.java:133-135 | for distinct ids, the positions with a hearing ahead are as many as the ids with one |
| `DashboardService.AppointmentSeen` | backend/src/main/java/com/casemate/pro/service/DashboardService.java:130-136 | a client with at most 100 cases, one with a hearing ahead, sees at least one appointment |
| `DashboardService.CalculatePendingTasks` | backend/src/main/java/com/casemate/pro/service/DashboardService.java:125-128 | the number of the lawyer's PENDING cases |
| `DashboardService.GetLawyerDashboardStats` | backend/src/main/java/com/casemate/pro/service/DashboardService.java:28-35 | ACTIVE count, all clients, pending tasks; active plus pending never exceed the lawyer's cases |
| `DashboardService.GetClientDashboardStats` | backend/src/main/java/com/casemate/pro/service/DashboardService.java:37-48 | revenue 0 and pending tasks 0; the "active" slot counts every status; the second slot counts the client's documents |
| `DashboardService.ClientActiveCountsEveryCase` | backend/src/main/java/com/casemate/pro/service/DashboardService.java:38 | the client's "active" figure equals the ACTIVE count exactly when the client has no PENDING or CLOSED case |
| `DashboardService.GetLawyerFullDashboard` | backend/src/main/java/com/casemate/pro/service/DashboardService.java:50-65 | the status counts partition the lawyer's cases; pending tasks equal pending cases; the recent cases are the lawyer's recent page of 4 |
| `DashboardService.GetClientFullDashboard` | backend/src/main/java/com/casemate/pro/service/DashboardService.java:67-82 | the status counts partition the client's cases; upcoming appointments as countUpcomingAppointments counts them; no unread messages; the recent cases are the client's recent page of 6 |
| `ClientCases.FormatLastUpdated` | src/pages/client/ClientCases.tsx:52-63 | floor of elapsed ms: "Just now" under an hour or in the future, "1 hour ago" / "N hours ago", "1 day ago", then "N days ago" without bound; "NaN days ago" for an unreadable date |
| `ClientCases.FutureUpdateIsJustNow` | src/pages/client/ClientCases.tsx:59 | every future update reads "Just now" |
| `ClientCases.AgreesWithActivityTime` | src/pages/client/ClientCases.tsx:55-62 | within a day the list and the dashboard show the same text; at one day "1 day ago" against "Yesterday"; past a week days against a date |
| `ClientCases.DisplayStatus` | src/pages/client/ClientCases.tsx:111 | "active", "pending", "closed" for the three statuses, one to one |
| `ClientCases.DisplayLawyer` | src/pages/client/ClientCases.tsx:110 | the lawyer's name, or "Pending Assignment" when there is none or it is empty |

## Left out

- File-system work in DocumentService: directory creation, copying, deletion and reading bytes. An upload is the record it saves. The copy's IOException text is an input. A failed physical delete is only logged in the source, so it has no effect here.
- downloadDocument: file I/O only.
- `uploadDocument` is covered by `UploadSingleFile`, since it only delegates.
- Authentication and wiring: AuthService, SecurityConfig, JWT, and the controllers other than CaseController. These only delegate. The current user is a parameter.
- CaseController's getCaseById and deleteCase endpoints delegate to the service with one catch clause. They are covered by the service members.
- Paging slices and ordering. A listing is the set of matching ids plus the PageRequest that would slice and order it. Only the "recent" queries model their order.
- Equal updatedAt values: the order among them is fixed by `CaseRepository.Recent`, where the database leaves it open.
- Case mapping covers ASCII letters only. Java's toUpperCase/toLowerCase are Unicode-aware and locale-sensitive. Lengths, by contrast, are counted in UTF-16 units, as String.length and @Size count them.
- SQL `LIKE` wildcards `%` and `_` inside a search text are treated as plain characters.
- Floating point:
  - the Double revenue sum of calculateMonthlyRevenue is the parameter `monthlyRevenue`;
  - caseValue is a real;
  - `DrawNumber` takes the random draw as an exact real.
- Locale date formatting: `"MMM dd, yyyy"` and `toLocaleDateString` are the parameter `formatDate` or are not shown.
- The time of day comes from parameters. The timestamp of ErrorResponse is not modelled.
- Sub-second precision: times are whole seconds on the back end and whole milliseconds in the front end.
- convertToCaseResponse: it uses members that CaseResponse.java does not declare. The dashboards return the case rows themselves.
- The texts of JVM exceptions are written out as the JVM phrases them, but they are constants of this model:
  - null-pointer messages;
  - DateTimeParseException;
  - the database's constraint-violation message;
  - the UUID parse error.
- Unreachable catch clauses are modelled but never taken. Every service throws only runtime exceptions, so the Exception branches (the 500 replies) are dead code.
- A JSON value of the wrong type for title, description, nextHearing or lawyer.id in createCase (a ClassCastException) is not modelled. Only caseValue distinguishes numbers from other values.
- Bean Validation reports errors in an order it leaves open, so `RegisterRequest.Violations` is a set. The `@Email` grammar is the parameter `wellFormedEmail`.
- Password hashing: `encode` and `matches` are whatever functions the configured BCrypt encoder computes. Only its refusal of a null raw password is modelled.
- `CaseService.GenerateUniqueCaseNumber`: the source may loop forever. The model takes a finite sequence of draws and answers None when all of them collide. Nothing calls the method in the source.
- `DocumentService.GetDocumentById` requires every document's case to be stored. The case_id foreign key guarantees this, and `Store.Database.Valid` states it.
- `CaseService.GetRecentCases`, `CaseController.GetRecentCasesEndpoint`, `DashboardService.GetRecentActivities`, `DashboardService.CountUpcomingAppointments`, `DashboardService.GetLawyerFullDashboard`, `DashboardService.GetClientFullDashboard`: these are ghost functions, because they read the repository's "recent" query, and that query picks among equal maxima with `:|`.
- The `id` of an activity is the case id itself, not its UUID text.

## Findings

| source | as written | input that shows it | evidently intended | confidence | as-written member | corrected member |
|---|---|---|---|---|---|---|
| backend/src/main/java/com/casemate/pro/controller/CaseController.java:119 | `updateCase` reads its body into a `Case`. The field initializer `status = PENDING` (Case.java:38) survives when the body has no "status". Then CaseService.java:107 sets the case to PENDING. | PUT /api/cases/{id} with body `{"title":"x"}` on an ACTIVE case: the case comes back PENDING | a partial update leaves fields it does not name unchanged, as every other field of the update does | not executed | `CaseController.TitleOnlyUpdateResetsStatus` | `CaseController.UpdateKeepsStatusUnlessGiven` |
