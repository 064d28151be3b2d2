/** The database the services share: the users, cases, documents and
    notifications tables, with the constraints the schema enforces. */
module Store {
  import opened Users
  import opened CaseEntity
  import opened Documents

  /** A row of the notifications table (NotificationService.createNotification). */
  datatype Notification = Notification(user: UserId, message: string)

  /** Every key maps to the row with that id, and no two users share an email. */
  ghost predicate UsersWellFormed(users: map<UserId, User>)
  {
    && (forall id :: id in users ==> users[id].id == id)
    && (forall a, b :: a in users && b in users && users[a].email == users[b].email ==> a == b)
  }

  /** Every key maps to the row with that id, below the next free id, and no
      two cases share a case number. */
  ghost predicate CasesWellFormed(cases: map<CaseId, CaseRecord>, nextCaseId: nat)
  {
    && (forall id :: id in cases ==> cases[id].id == id && id < nextCaseId)
    && (forall a, b :: a in cases && b in cases && cases[a].caseNumber == cases[b].caseNumber ==> a == b)
  }

  /** Every document belongs to a stored case (the case_id foreign key). */
  ghost predicate DocumentsWellFormed(documents: map<DocId, DocumentRecord>, nextDocId: nat, cases: map<CaseId, CaseRecord>)
  {
    forall id :: id in documents ==>
      documents[id].id == id && id < nextDocId && documents[id].caseId in cases
  }

  /** Replacing a case row by one with the same id and case number keeps the
      cases table well formed. */
  lemma CasesWellFormedReplace(cases: map<CaseId, CaseRecord>, nextCaseId: nat, id: CaseId, row: CaseRecord)
    requires CasesWellFormed(cases, nextCaseId) && id in cases
    requires row.id == id && row.caseNumber == cases[id].caseNumber
    ensures CasesWellFormed(cases[id := row], nextCaseId)
  {
  }

  /** Inserting a row under the next free id with an unused case number keeps
      the cases table well formed. */
  lemma CasesWellFormedInsert(cases: map<CaseId, CaseRecord>, nextCaseId: nat, row: CaseRecord)
    requires CasesWellFormed(cases, nextCaseId)
    requires row.id == nextCaseId
    requires forall id :: id in cases ==> cases[id].caseNumber != row.caseNumber
    ensures nextCaseId !in cases
    ensures CasesWellFormed(cases[nextCaseId := row], nextCaseId + 1)
  {
  }

  class Database {
    var users: map<UserId, User>
    var cases: map<CaseId, CaseRecord>
    var documents: map<DocId, DocumentRecord>
    var notifications: seq<Notification>
    /** The generator of fresh primary keys. */
    var nextCaseId: nat
    var nextDocId: nat

    ghost predicate Valid()
      reads this
    {
      && UsersWellFormed(users)
      && CasesWellFormed(cases, nextCaseId)
      && DocumentsWellFormed(documents, nextDocId, cases)
    }

    constructor (users: map<UserId, User>)
      requires UsersWellFormed(users)
      ensures Valid()
      ensures this.users == users && cases == map[] && documents == map[] && notifications == []
    {
      this.users := users;
      cases := map[];
      documents := map[];
      notifications := [];
      nextCaseId := 0;
      nextDocId := 0;
    }
  }
}
