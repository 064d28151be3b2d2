/** The queries of DocumentRepository.java as functions of the documents and
    cases tables. Listings give the set of matching ids; paging is the
    caller's. */
module DocumentRepository {
  import opened Text
  import opened Users
  import opened CaseEntity
  import opened Documents

  /** Every document's case is stored (the case_id foreign key), so a join
      through d.caseEntity never loses a row. */
  predicate Linked(documents: map<DocId, DocumentRecord>, cases: map<CaseId, CaseRecord>)
  {
    forall d :: d in documents ==> documents[d].caseId in cases
  }

  /** findByCaseEntity (with or without a page). */
  function DocsOfCase(documents: map<DocId, DocumentRecord>, caseId: CaseId): set<DocId>
  {
    set d | d in documents && documents[d].caseId == caseId
  }

  /** findByUploadedBy. */
  function UploadedBy(documents: map<DocId, DocumentRecord>, user: UserId): set<DocId>
  {
    set d | d in documents && documents[d].uploadedBy == user
  }

  /** The documents whose case has `lawyer` as lawyer. */
  function OfCaseLawyer(documents: map<DocId, DocumentRecord>, cases: map<CaseId, CaseRecord>, lawyer: UserId): set<DocId>
  {
    set d | d in documents && documents[d].caseId in cases && cases[documents[d].caseId].lawyer == lawyer
  }

  /** The documents whose case has `client` as client. */
  function OfCaseClient(documents: map<DocId, DocumentRecord>, cases: map<CaseId, CaseRecord>, client: UserId): set<DocId>
  {
    set d | d in documents && documents[d].caseId in cases && cases[documents[d].caseId].client == client
  }

  /** findByUserAccess: the case's lawyer is `lawyer` or its client is `user`. */
  function UserAccess(documents: map<DocId, DocumentRecord>, cases: map<CaseId, CaseRecord>, lawyer: UserId, user: UserId): set<DocId>
  {
    set d | d in documents && documents[d].caseId in cases
              && (cases[documents[d].caseId].lawyer == lawyer || cases[documents[d].caseId].client == user)
  }

  /** findByUserAccess is the union of the two one-sided selections, so its
      size is at most the sum of the two counts. */
  lemma UserAccessSplit(documents: map<DocId, DocumentRecord>, cases: map<CaseId, CaseRecord>, lawyer: UserId, user: UserId)
    ensures UserAccess(documents, cases, lawyer, user) == OfCaseLawyer(documents, cases, lawyer) + OfCaseClient(documents, cases, user)
    ensures |UserAccess(documents, cases, lawyer, user)| <= CountDocumentsByLawyer(documents, cases, lawyer) + CountDocumentsByClient(documents, cases, user)
  {
    var a := OfCaseLawyer(documents, cases, lawyer);
    var b := OfCaseClient(documents, cases, user);
    assert UserAccess(documents, cases, lawyer, user) == a + b;
    assert a + b == a + (b - a);
    assert |a + (b - a)| == |a| + |b - a|;
    assert b == (b - a) + (b * a);
    assert |b| == |b - a| + |b * a|;
  }

  /** findByCaseAndSearch: the case's documents whose name or type contains
      the search, ignoring letter case. */
  function CaseAndSearch(documents: map<DocId, DocumentRecord>, caseId: CaseId, search: string): set<DocId>
  {
    set d | d in documents && documents[d].caseId == caseId
              && (LikeContains(documents[d].name, search) || LikeContains(documents[d].fileType, search))
  }

  /** A search only narrows the case's documents, the empty search keeps all
      of them, and the search ignores letter case. */
  lemma CaseAndSearchSpec(documents: map<DocId, DocumentRecord>, caseId: CaseId, search: string, other: string)
    ensures CaseAndSearch(documents, caseId, search) <= DocsOfCase(documents, caseId)
    ensures CaseAndSearch(documents, caseId, "") == DocsOfCase(documents, caseId)
    ensures ToLower(search) == ToLower(other) ==> CaseAndSearch(documents, caseId, search) == CaseAndSearch(documents, caseId, other)
  {
    forall d | d in DocsOfCase(documents, caseId) ensures d in CaseAndSearch(documents, caseId, "") {
      ContainsEmpty(ToLower(documents[d].name));
    }
  }

  /** countDocumentsByLawyer. */
  function CountDocumentsByLawyer(documents: map<DocId, DocumentRecord>, cases: map<CaseId, CaseRecord>, lawyer: UserId): nat
  {
    |OfCaseLawyer(documents, cases, lawyer)|
  }

  /** countDocumentsByClient. */
  function CountDocumentsByClient(documents: map<DocId, DocumentRecord>, cases: map<CaseId, CaseRecord>, client: UserId): nat
  {
    |OfCaseClient(documents, cases, client)|
  }
}
