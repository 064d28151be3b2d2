/** The document entity (Document.java): one uploaded file attached to a
    case. */
module Documents {
  import opened Wrappers
  import opened Users
  import opened CaseEntity

  type DocId = nat

  datatype Category =
    | CONTRACT
    | LEASE_AGREEMENT
    | EMPLOYMENT_AGREEMENT
    | COURT_FILING
    | EVIDENCE
    | PAN_CARD
    | AADHAR_CARD
    | DRIVING_LICENSE
    | OTHER

  /** A stored row of the documents table. Name, file path, type, size,
      category, case and uploader are NOT NULL; the description may be null.
      `fileType` is the column `type`. */
  datatype DocumentRecord = DocumentRecord(
    id: DocId,
    name: string,
    filePath: string,
    fileType: string,
    size: int,
    description: Option<string>,
    category: Category,
    uploadedAt: Time,
    caseId: CaseId,
    uploadedBy: UserId)
}
