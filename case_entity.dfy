/** The case entity (Case.java): the status enumeration, the persisted case
    row, and the transient Case object that the controller and the service
    fill in through setters before it is saved, including the case-number
    hook that runs just before the first save. */
module CaseEntity {
  import opened Wrappers
  import opened Text
  import opened Users

  type CaseId = nat

  /** LocalDateTime, as a count of seconds on one time line. */
  type Time = int

  datatype Status = ACTIVE | PENDING | CLOSED

  /** Enum.name(). */
  function StatusName(s: Status): string
  {
    match s
    case ACTIVE => "ACTIVE"
    case PENDING => "PENDING"
    case CLOSED => "CLOSED"
  }

  /** Status.valueOf: the constant with exactly this name, if any (None is
      the IllegalArgumentException). */
  function StatusValueOf(name: string): Option<Status>
  {
    if name == "ACTIVE" then Some(ACTIVE)
    else if name == "PENDING" then Some(PENDING)
    else if name == "CLOSED" then Some(CLOSED)
    else None
  }

  /** The three names and the three constants correspond one to one:
      valueOf accepts exactly the names name() produces. */
  lemma StatusNamesRoundTrip(s: Status, name: string)
    ensures StatusValueOf(StatusName(s)) == Some(s)
    ensures StatusValueOf(name) == Some(s) <==> name == StatusName(s)
  {
  }

  /** A stored row of the cases table. Lawyer and client are NOT NULL
      foreign keys, the title is NOT NULL and the case number is NOT NULL
      and UNIQUE. */
  datatype CaseRecord = CaseRecord(
    id: CaseId,
    caseNumber: string,
    title: string,
    description: Option<string>,
    status: Status,
    nextHearing: Option<Time>,
    notes: Option<string>,
    caseValue: Option<real>,
    createdAt: Time,
    updatedAt: Time,
    lawyer: UserId,
    client: UserId)

  // ---------------------------------------------------------------------------
  // Case numbers
  // ---------------------------------------------------------------------------

  /** (int) (Math.random() * 1000) for a draw in [0, 1). */
  function DrawNumber(random: real): (n: nat)
    requires 0.0 <= random < 1.0
    ensures n <= 999
  {
    (random * 1000.0).Floor
  }

  /** "CS-" + year + "-" + String.format("%03d", n). */
  function CaseNumberFor(year: nat, n: nat): string
    requires n < 1000
  {
    "CS-" + NatToString(year) + "-" + Pad3(n)
  }

  /** Reads a generated case number back into its year and serial. */
  function ParseCaseNumber(s: string): Option<(nat, nat)>
  {
    if |s| >= 8 && s[..3] == "CS-" && s[|s| - 4] == '-'
       && AllDigits(s[3..|s| - 4]) && AllDigits(s[|s| - 3..])
    then Some((DigitsValue(s[3..|s| - 4]), DigitsValue(s[|s| - 3..])))
    else None
  }

  /** A generated number has the documented shape and reads back as the year
      and serial it was made from. */
  lemma {:induction false} CaseNumberRoundTrip(year: nat, n: nat)
    requires n < 1000
    ensures StartsWith(CaseNumberFor(year, n), "CS-")
    ensures |CaseNumberFor(year, n)| == 7 + |NatToString(year)|
    ensures ParseCaseNumber(CaseNumberFor(year, n)) == Some((year, n))
  {
    var s := CaseNumberFor(year, n);
    var y := NatToString(year);
    assert s[..3] == "CS-";
    assert s[3..|s| - 4] == y;
    assert s[|s| - 3..] == Pad3(n);
    NatToStringRoundTrip(year);
    Pad3RoundTrip(n);
  }

  /** Two generated numbers are equal only when year and serial are. */
  lemma CaseNumberInjective(y1: nat, n1: nat, y2: nat, n2: nat)
    requires n1 < 1000 && n2 < 1000
    requires CaseNumberFor(y1, n1) == CaseNumberFor(y2, n2)
    ensures y1 == y2 && n1 == n2
  {
    CaseNumberRoundTrip(y1, n1);
    CaseNumberRoundTrip(y2, n2);
  }

  /** The case number after the pre-persist hook: an existing number is kept,
      a missing one is generated from the year and the random draw. */
  function AssignedCaseNumber(current: Option<string>, year: nat, random: real): (r: Option<string>)
    requires 0.0 <= random < 1.0
    ensures r.Some?
    ensures current.Some? ==> r == current
    ensures current.None? ==> ParseCaseNumber(r.value) == Some((year, DrawNumber(random)))
  {
    if current.Some? then current
    else
      CaseNumberRoundTrip(year, DrawNumber(random));
      Some(CaseNumberFor(year, DrawNumber(random)))
  }

  /** Running the hook a second time, with any year and any draw, changes
      nothing. */
  lemma AssignedCaseNumberIdempotent(current: Option<string>, y1: nat, r1: real, y2: nat, r2: real)
    requires 0.0 <= r1 < 1.0 && 0.0 <= r2 < 1.0
    ensures AssignedCaseNumber(AssignedCaseNumber(current, y1, r1), y2, r2) == AssignedCaseNumber(current, y1, r1)
  {
  }

  // ---------------------------------------------------------------------------
  // The transient entity
  // ---------------------------------------------------------------------------

  /** A Case object before it is saved. Every reference field may be null;
      status starts as PENDING through its field initializer. */
  class Case {
    var caseNumber: Option<string>
    var title: Option<string>
    var description: Option<string>
    var status: Option<Status>
    var nextHearing: Option<Time>
    var notes: Option<string>
    var caseValue: Option<real>
    var lawyer: Option<UserId>
    var client: Option<UserId>

    /** new Case(): every field null except the status default. */
    constructor ()
      ensures status == Some(PENDING)
      ensures caseNumber == None && title == None && description == None
      ensures nextHearing == None && notes == None && caseValue == None
      ensures lawyer == None && client == None
    {
      caseNumber := None;
      title := None;
      description := None;
      status := Some(PENDING);
      nextHearing := None;
      notes := None;
      caseValue := None;
      lawyer := None;
      client := None;
    }

    /** The @PrePersist hook generateCaseNumber, with Year.now() and
        Math.random() passed in. */
    method GenerateCaseNumber(year: nat, random: real)
      requires 0.0 <= random < 1.0
      modifies this`caseNumber
      ensures caseNumber == AssignedCaseNumber(old(caseNumber), year, random)
    {
      if caseNumber == None {
        caseNumber := Some(CaseNumberFor(year, DrawNumber(random)));
      }
    }
  }
}
