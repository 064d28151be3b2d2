/** DocumentService.java: listing, uploading, fetching and deleting the
    documents of a case. Read access goes through the owning case (its
    lawyer or its client). The file system is left out: an upload is the
    record it saves, with the stored file name's random part and the copy's
    failure given as inputs. */
module DocumentService {
  import opened Wrappers
  import opened Text
  import opened Errors
  import opened Paging
  import opened Users
  import opened CaseEntity
  import opened Documents
  import opened Store
  import opened DocumentRepository
  import opened CaseService

  // ---------------------------------------------------------------------------
  // getFileExtension
  // ---------------------------------------------------------------------------

  /** getFileExtension: "unknown" for a missing name or one without a dot,
      else the text after the last dot, lower-cased. */
  function GetFileExtension(filename: Option<string>): (r: string)
    ensures filename.None? || '.' !in filename.value ==> r == "unknown"
    ensures filename.Some? && '.' in filename.value ==> '.' !in r && |r| < |filename.value|
  {
    if filename.None? || LastIndexOf(filename.value, '.') == -1 then "unknown"
    else
      var s := filename.value;
      var tail := s[LastIndexOf(s, '.') + 1..];
      assert forall k :: 0 <= k < |tail| ==> tail[k] != '.';
      assert forall k :: 0 <= k < |tail| ==> ToLower(tail)[k] != '.';
      ToLower(tail)
  }

  /** The extension of base + "." + ext, where ext has no dot, is ext in
      lower case, whatever dots base holds; so "a.tar.GZ" gives "gz" and
      "x." gives "". */
  lemma FileExtensionOf(base: string, ext: string)
    requires '.' !in ext
    ensures GetFileExtension(Some(base + "." + ext)) == ToLower(ext)
  {
    var s := base + "." + ext;
    assert s[|base|] == '.';
    assert forall j :: |base| < j < |s| ==> s[j] == ext[j - |base| - 1];
    var k := LastIndexOf(s, '.');
    assert k == |base|;
    assert s[k + 1..] == ext;
  }

  lemma FileExtensionExamples()
    ensures GetFileExtension(Some("a.tar.GZ")) == "gz"
    ensures GetFileExtension(Some("x.")) == ""
    ensures GetFileExtension(Some("README")) == "unknown"
  {
    assert "a.tar.GZ" == "a.tar" + "." + "GZ";
    FileExtensionOf("a.tar", "GZ");
    assert ToLower("GZ") == "gz";
    assert "x." == "x" + "." + "";
    FileExtensionOf("x", "");
    assert LastIndexOf("README", '.') == -1;
  }

  // ---------------------------------------------------------------------------
  // Listings and lookups
  // ---------------------------------------------------------------------------

  /** A page of documents: the matching ids and the page request. */
  datatype DocListing = DocListing(matching: set<DocId>, request: PageRequest)

  /** getDocuments: with a case id, that case's documents for a caller with
      access to it; without one, the documents the caller uploaded. The page
      request is built (and checked) first. */
  function GetDocuments(cases: map<CaseId, CaseRecord>, documents: map<DocId, DocumentRecord>, user: User,
                        caseId: Option<CaseId>, page: int, size: int): (r: Result<DocListing, Exception>)
    ensures (page < 0 || size < 1) ==> r.Err? && r.error.IllegalArgument?
    ensures 0 <= page && 1 <= size && caseId.None? ==> r.Ok? && r.value.matching == UploadedBy(documents, user.id)
    ensures 0 <= page && 1 <= size && caseId.Some? ==>
      match GetCaseById(cases, caseId.value, user)
      case Err(e) => r == Err(e)
      case Ok(_) => r.Ok? && r.value.matching == DocsOfCase(documents, caseId.value)
    ensures r.Ok? ==> r.value.request.sort == Some(Sort("uploadedAt", DESC))
  {
    match PageRequestOf(page, size, Some(Sort("uploadedAt", DESC)))
    case Err(e) => Err(e)
    case Ok(pageable) =>
      if caseId.Some? then
        match GetCaseById(cases, caseId.value, user)
        case Err(e) => Err(e)
        case Ok(_) => Ok(DocListing(DocsOfCase(documents, caseId.value), pageable))
      else Ok(DocListing(UploadedBy(documents, user.id), pageable))
  }

  /** getDocumentsByCase: the case's documents, for a caller with access. */
  function GetDocumentsByCase(cases: map<CaseId, CaseRecord>, documents: map<DocId, DocumentRecord>, caseId: CaseId, user: User)
    : (r: Result<set<DocId>, Exception>)
    ensures r.Ok? <==> caseId in cases && HasAccessToCase(cases[caseId], user)
    ensures caseId !in cases ==> r == Err(Runtime("Case not found"))
    ensures r.Ok? ==> r.value == DocsOfCase(documents, caseId)
    ensures r.Ok? ==> forall d :: d in r.value ==> documents[d].caseId == caseId
  {
    match GetCaseById(cases, caseId, user)
    case Err(e) => Err(e)
    case Ok(_) => Ok(DocsOfCase(documents, caseId))
  }

  /** The paged and the unpaged listing of a case agree on what they select
      and on when they fail. */
  lemma ListingsAgree(cases: map<CaseId, CaseRecord>, documents: map<DocId, DocumentRecord>, caseId: CaseId, user: User, page: int, size: int)
    requires 0 <= page && 1 <= size
    ensures var paged := GetDocuments(cases, documents, user, Some(caseId), page, size);
            var all := GetDocumentsByCase(cases, documents, caseId, user);
      && (paged.Ok? <==> all.Ok?)
      && (paged.Ok? ==> paged.value.matching == all.value)
      && (paged.Err? ==> paged.error == all.error)
  {
  }

  /** getDocumentById: "Document not found" for an unknown id, "Access
      denied to this document" unless the caller is the lawyer or the client
      of the document's case. */
  function GetDocumentById(cases: map<CaseId, CaseRecord>, documents: map<DocId, DocumentRecord>, docId: DocId, user: User)
    : (r: Result<DocumentRecord, Exception>)
    requires Linked(documents, cases)
    ensures r.Ok? <==> docId in documents && HasAccessToCase(cases[documents[docId].caseId], user)
    ensures r.Ok? ==> r.value == documents[docId]
    ensures docId !in documents ==> r == Err(Runtime("Document not found"))
    ensures docId in documents && r.Err? ==> r == Err(Runtime("Access denied to this document"))
  {
    if docId !in documents then Err(Runtime("Document not found"))
    else if !HasAccessToCase(cases[documents[docId].caseId], user) then Err(Runtime("Access denied to this document"))
    else Ok(documents[docId])
  }

  // ---------------------------------------------------------------------------
  // Uploads
  // ---------------------------------------------------------------------------

  /** One multipart file: its original name (null when the client sent
      none), its size, the random UUID text the stored name starts with, and
      the message of the IOException that copying it raises, if any. */
  datatype Upload = Upload(originalFilename: Option<string>, size: int, storedAs: string, copyError: Option<string>)

  /** String concatenation of a possibly null name. */
  function NameText(name: Option<string>): string
  {
    if name.Some? then name.value else "null"
  }

  /** Where the file is copied: the upload directory, the random UUID, "_"
      and the original name. */
  function StoredPath(file: Upload): string
  {
    "uploads/documents/" + file.storedAs + "_" + NameText(file.originalFilename)
  }

  /** Why uploadSingleFile fails, in the order it checks: the case lookup
      and access, the file copy, then the NOT NULL name and category columns
      on save. */
  function UploadFailure(cases: map<CaseId, CaseRecord>, file: Upload, caseId: CaseId, category: Option<Category>, user: User)
    : (r: Option<Exception>)
    ensures r.None? <==> caseId in cases && HasAccessToCase(cases[caseId], user) && file.copyError.None?
                         && file.originalFilename.Some? && category.Some?
    ensures caseId in cases && HasAccessToCase(cases[caseId], user) && file.copyError.Some? ==>
      r == Some(Runtime("Failed to upload file: " + file.copyError.value))
  {
    match GetCaseById(cases, caseId, user)
    case Err(e) => Some(e)
    case Ok(_) =>
      if file.copyError.Some? then Some(Runtime("Failed to upload file: " + file.copyError.value))
      else if file.originalFilename.None? || category.None? then Some(Runtime(ConstraintViolation))
      else None
  }

  /** The record uploadSingleFile saves. */
  function UploadRecord(file: Upload, id: DocId, caseId: CaseId, description: Option<string>, category: Category, user: User, now: Time)
    : DocumentRecord
    requires file.originalFilename.Some?
  {
    DocumentRecord(id, file.originalFilename.value, StoredPath(file), GetFileExtension(file.originalFilename),
                   file.size, description, category, now, caseId, user.id)
  }

  /** uploadSingleFile: checks access to the case, copies the file and
      saves a record built from the inputs under the next id. */
  method UploadSingleFile(db: Database, file: Upload, caseId: CaseId, description: Option<string>, category: Option<Category>,
                          user: User, now: Time)
    returns (r: Result<DocumentRecord, Exception>)
    requires db.Valid()
    modifies db
    ensures db.Valid()
    ensures db.users == old(db.users) && db.cases == old(db.cases) && db.notifications == old(db.notifications)
    ensures var failure := UploadFailure(old(db.cases), file, caseId, category, user);
      && (r.Err? <==> failure.Some?)
      && (r.Err? ==> r.error == failure.value && db.documents == old(db.documents) && db.nextDocId == old(db.nextDocId))
    ensures r.Ok? ==>
      && file.originalFilename.Some? && category.Some?
      && r.value == UploadRecord(file, old(db.nextDocId), caseId, description, category.value, user, now)
      && r.value.id !in old(db.documents)
      && db.documents == old(db.documents)[r.value.id := r.value]
      && db.nextDocId == old(db.nextDocId) + 1
  {
    var found := GetCaseById(db.cases, caseId, user);
    if found.Err? {
      return Err(found.error);
    }
    var caseEntity := found.value;
    if file.copyError.Some? {
      return Err(Runtime("Failed to upload file: " + file.copyError.value));
    }
    var filePath := "uploads/documents/" + file.storedAs + "_" + NameText(file.originalFilename);
    if file.originalFilename.None? || category.None? {
      return Err(Runtime(ConstraintViolation));
    }
    var document := DocumentRecord(db.nextDocId, file.originalFilename.value, filePath,
                                   GetFileExtension(file.originalFilename), file.size, description,
                                   category.value, now, caseEntity.id, user.id);
    db.documents := db.documents[document.id := document];
    db.nextDocId := db.nextDocId + 1;
    r := Ok(document);
  }

  /** The documents table after saving `records` one after another. */
  function SaveAll(documents: map<DocId, DocumentRecord>, records: seq<DocumentRecord>): map<DocId, DocumentRecord>
  {
    if records == [] then documents
    else SaveAll(documents, records[..|records| - 1])[records[|records| - 1].id := records[|records| - 1]]
  }

  /** The records a run of uploads saves, the k-th under id start + k. */
  predicate SavedInOrder(records: seq<DocumentRecord>, files: seq<Upload>, start: nat, caseId: CaseId,
                         description: Option<string>, category: Option<Category>, user: User, now: Time)
  {
    && |records| <= |files|
    && forall k :: 0 <= k < |records| ==>
         files[k].originalFilename.Some? && category.Some?
         && records[k] == UploadRecord(files[k], start + k, caseId, description, category.value, user, now)
  }

  /** One more upload extends the saved run by its record. */
  lemma SavedInOrderExtend(documents: map<DocId, DocumentRecord>, records: seq<DocumentRecord>, next: DocumentRecord,
                           files: seq<Upload>, start: nat, caseId: CaseId,
                           description: Option<string>, category: Option<Category>, user: User, now: Time)
    requires SavedInOrder(records, files, start, caseId, description, category, user, now)
    requires |records| < |files| && files[|records|].originalFilename.Some? && category.Some?
    requires next == UploadRecord(files[|records|], start + |records|, caseId, description, category.value, user, now)
    ensures SavedInOrder(records + [next], files, start, caseId, description, category, user, now)
    ensures SaveAll(documents, records + [next]) == SaveAll(documents, records)[next.id := next]
  {
    assert (records + [next])[..|records|] == records;
  }

  /** uploadMultipleDocuments: uploads the files one by one and returns one
      record per file, in input order. Without a transaction, a failure
      leaves the records saved before it in place. */
  method UploadMultipleDocuments(db: Database, files: seq<Upload>, caseId: CaseId, description: Option<string>,
                                 category: Option<Category>, user: User, now: Time)
    returns (r: Result<seq<DocumentRecord>, Exception>)
    requires db.Valid()
    modifies db
    ensures db.Valid()
    ensures db.users == old(db.users) && db.cases == old(db.cases) && db.notifications == old(db.notifications)
    ensures files == [] ==> r == Ok([]) && db.documents == old(db.documents)
    ensures r.Ok? <==> forall k :: 0 <= k < |files| ==> UploadFailure(old(db.cases), files[k], caseId, category, user).None?
    ensures r.Ok? ==>
      && |r.value| == |files|
      && SavedInOrder(r.value, files, old(db.nextDocId), caseId, description, category, user, now)
      && db.documents == SaveAll(old(db.documents), r.value)
    ensures r.Err? ==> exists saved: seq<DocumentRecord> ::
      && |saved| < |files|
      && SavedInOrder(saved, files, old(db.nextDocId), caseId, description, category, user, now)
      && db.documents == SaveAll(old(db.documents), saved)
      && UploadFailure(old(db.cases), files[|saved|], caseId, category, user) == Some(r.error)
  {
    var uploaded: seq<DocumentRecord> := [];
    var i := 0;
    while i < |files|
      invariant 0 <= i <= |files| && |uploaded| == i
      invariant db.Valid()
      invariant db.users == old(db.users) && db.cases == old(db.cases) && db.notifications == old(db.notifications)
      invariant db.nextDocId == old(db.nextDocId) + i
      invariant SavedInOrder(uploaded, files, old(db.nextDocId), caseId, description, category, user, now)
      invariant db.documents == SaveAll(old(db.documents), uploaded)
      invariant forall k :: 0 <= k < i ==> UploadFailure(old(db.cases), files[k], caseId, category, user).None?
    {
      var one := UploadSingleFile(db, files[i], caseId, description, category, user, now);
      if one.Err? {
        assert SavedInOrder(uploaded, files, old(db.nextDocId), caseId, description, category, user, now);
        return Err(one.error);
      }
      SavedInOrderExtend(old(db.documents), uploaded, one.value, files, old(db.nextDocId), caseId, description, category, user, now);
      uploaded := uploaded + [one.value];
      i := i + 1;
    }
    r := Ok(uploaded);
  }

  // ---------------------------------------------------------------------------
  // Deletion
  // ---------------------------------------------------------------------------

  /** deleteDocument's permission: the uploader or the case's lawyer. */
  predicate MayDelete(cases: map<CaseId, CaseRecord>, doc: DocumentRecord, user: User)
    requires doc.caseId in cases
  {
    doc.uploadedBy == user.id || cases[doc.caseId].lawyer == user.id
  }

  /** A client of the case who did not upload the document may read it but
      not delete it. */
  lemma ClientMayReadNotDelete(cases: map<CaseId, CaseRecord>, documents: map<DocId, DocumentRecord>, docId: DocId, user: User)
    requires Linked(documents, cases) && docId in documents
    requires cases[documents[docId].caseId].client == user.id
    requires cases[documents[docId].caseId].lawyer != user.id && documents[docId].uploadedBy != user.id
    ensures GetDocumentById(cases, documents, docId, user).Ok?
    ensures !MayDelete(cases, documents[docId], user)
  {
  }

  /** deleteDocument: fetches the document (with its access check), checks
      the permission, and removes the record; a failure to remove the file
      on disk is only logged, so the record goes in any case. */
  method DeleteDocument(db: Database, docId: DocId, user: User) returns (r: Outcome<Exception>)
    requires db.Valid()
    modifies db
    ensures db.Valid()
    ensures db.users == old(db.users) && db.cases == old(db.cases) && db.notifications == old(db.notifications)
    ensures Linked(old(db.documents), old(db.cases))
    ensures var found := GetDocumentById(old(db.cases), old(db.documents), docId, user);
      && (found.Err? ==> r == Fail(found.error))
      && (found.Ok? && !MayDelete(old(db.cases), found.value, user) ==>
            r == Fail(Runtime("You don't have permission to delete this document")))
      && (r.Pass? <==> found.Ok? && MayDelete(old(db.cases), found.value, user))
    ensures r.Fail? ==> db.documents == old(db.documents)
    ensures r.Pass? ==> db.documents == old(db.documents) - {docId}
  {
    var found := GetDocumentById(db.cases, db.documents, docId, user);
    if found.Err? {
      return Fail(found.error);
    }
    var document := found.value;
    if document.uploadedBy != user.id && db.cases[document.caseId].lawyer != user.id {
      return Fail(Runtime("You don't have permission to delete this document"));
    }
    db.documents := db.documents - {docId};
    r := Pass;
  }
}
