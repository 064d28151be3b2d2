/** The JPQL queries of CaseRepository.java as functions of the cases table.
    Listing queries give the set of matching ids (their paging is the
    caller's); the "recent" queries give the ids in order. */
module CaseRepository {
  import opened Users
  import opened CaseEntity

  /** Which foreign key of a case a query filters on. */
  datatype Side = LawyerSide | ClientSide

  /** The side of the cases a user's role puts them on. */
  function SideOf(role: Role): Side
  {
    if role == LAWYER then LawyerSide else ClientSide
  }

  function PartyOf(c: CaseRecord, side: Side): UserId
  {
    match side
    case LawyerSide => c.lawyer
    case ClientSide => c.client
  }

  /** findByLawyer / findByClient: the cases whose lawyer (client) is user. */
  function ByParty(cases: map<CaseId, CaseRecord>, side: Side, user: UserId): set<CaseId>
  {
    set id | id in cases && PartyOf(cases[id], side) == user
  }

  /** findByLawyerAndStatus / findByClientAndStatus. */
  function ByPartyAndStatus(cases: map<CaseId, CaseRecord>, side: Side, user: UserId, status: Status): set<CaseId>
  {
    set id | id in cases && PartyOf(cases[id], side) == user && cases[id].status == status
  }

  /** countCasesByLawyer / countCasesByClient. */
  function CountByParty(cases: map<CaseId, CaseRecord>, side: Side, user: UserId): nat
  {
    |ByParty(cases, side, user)|
  }

  /** countActiveCasesByLawyer, countPendingCasesByLawyer, countClosedCasesByLawyer
      and the three client counterparts. */
  function CountByPartyAndStatus(cases: map<CaseId, CaseRecord>, side: Side, user: UserId, status: Status): nat
  {
    |ByPartyAndStatus(cases, side, user, status)|
  }

  /** A status filter selects exactly the party's cases with that status. */
  lemma ByPartyAndStatusSpec(cases: map<CaseId, CaseRecord>, side: Side, user: UserId, status: Status)
    ensures ByPartyAndStatus(cases, side, user, status) <= ByParty(cases, side, user)
    ensures forall id :: id in ByParty(cases, side, user) ==>
      (id in ByPartyAndStatus(cases, side, user, status) <==> cases[id].status == status)
  {
  }

  /** The active, pending and closed counts of a lawyer (or a client) add up
      to that party's total count. */
  lemma StatusCountsPartition(cases: map<CaseId, CaseRecord>, side: Side, user: UserId)
    ensures CountByPartyAndStatus(cases, side, user, ACTIVE)
          + CountByPartyAndStatus(cases, side, user, PENDING)
          + CountByPartyAndStatus(cases, side, user, CLOSED)
         == CountByParty(cases, side, user)
  {
    var a := ByPartyAndStatus(cases, side, user, ACTIVE);
    var p := ByPartyAndStatus(cases, side, user, PENDING);
    var c := ByPartyAndStatus(cases, side, user, CLOSED);
    var all := ByParty(cases, side, user);
    assert a * p == {} && (a + p) * c == {};
    assert all == a + p + c by {
      forall id | id in all ensures id in a + p + c {
        match cases[id].status
        case ACTIVE => assert id in a;
        case PENDING => assert id in p;
        case CLOSED => assert id in c;
      }
    }
    assert |a + p| == |a| + |p|;
    assert |a + p + c| == |a + p| + |c|;
  }

  /** existsByCaseNumber. */
  predicate ExistsByCaseNumber(cases: map<CaseId, CaseRecord>, caseNumber: string)
  {
    exists id :: id in cases && cases[id].caseNumber == caseNumber
  }

  // ---------------------------------------------------------------------------
  // ORDER BY c.updatedAt DESC, first page
  // ---------------------------------------------------------------------------

  ghost predicate IsMostRecent(cases: map<CaseId, CaseRecord>, ids: set<CaseId>, m: CaseId)
    requires ids <= cases.Keys
  {
    m in ids && forall x :: x in ids ==> cases[x].updatedAt <= cases[m].updatedAt
  }

  lemma {:induction false} MostRecentExists(cases: map<CaseId, CaseRecord>, ids: set<CaseId>)
    requires ids != {} && ids <= cases.Keys
    ensures exists m :: IsMostRecent(cases, ids, m)
    decreases |ids|
  {
    var x :| x in ids;
    if ids == {x} {
      assert IsMostRecent(cases, ids, x);
    } else {
      MostRecentExists(cases, ids - {x});
      var m :| IsMostRecent(cases, ids - {x}, m);
      if cases[x].updatedAt <= cases[m].updatedAt {
        assert IsMostRecent(cases, ids, m);
      } else {
        assert IsMostRecent(cases, ids, x);
      }
    }
  }

  /** The first `limit` of ids in order of updatedAt, latest first. Rows with
      equal updatedAt come in an order the query leaves open; this function
      fixes one. */
  ghost function Recent(cases: map<CaseId, CaseRecord>, ids: set<CaseId>, limit: nat): (r: seq<CaseId>)
    requires ids <= cases.Keys
    ensures |r| == if limit < |ids| then limit else |ids|
    ensures forall i :: 0 <= i < |r| ==> r[i] in ids
    ensures forall i, j :: 0 <= i < j < |r| ==> r[i] != r[j]
    ensures forall i, j :: 0 <= i < j < |r| ==> cases[r[j]].updatedAt <= cases[r[i]].updatedAt
    ensures forall i, x :: 0 <= i < |r| && x in ids && x !in r ==> cases[x].updatedAt <= cases[r[i]].updatedAt
    decreases limit
  {
    if limit == 0 || ids == {} then []
    else
      MostRecentExists(cases, ids);
      var m :| IsMostRecent(cases, ids, m);
      [m] + Recent(cases, ids - {m}, limit - 1)
  }

  /** Every key of the table maps to the row with that id. */
  predicate RowsKeyedById(cases: map<CaseId, CaseRecord>)
  {
    forall id :: id in cases ==> cases[id].id == id
  }

  /** rows is a first page of the party's cases, latest update first:
      as many rows as the page holds or the party has, each one of the
      party's cases, in order of updatedAt, none of the cases left out
      updated later than a row, and no case twice. */
  ghost predicate IsRecentPage(cases: map<CaseId, CaseRecord>, side: Side, user: UserId, limit: nat, rows: seq<CaseRecord>)
  {
    && |rows| == (if limit < CountByParty(cases, side, user) then limit else CountByParty(cases, side, user))
    && (forall i :: 0 <= i < |rows| ==> rows[i] in cases.Values && PartyOf(rows[i], side) == user)
    && (forall i, j :: 0 <= i < j < |rows| ==> rows[j].updatedAt <= rows[i].updatedAt)
    && (forall i, x :: 0 <= i < |rows| && x in ByParty(cases, side, user) && cases[x] !in rows ==>
          cases[x].updatedAt <= rows[i].updatedAt)
    && (RowsKeyedById(cases) ==> forall i, j :: 0 <= i < j < |rows| ==> rows[i].id != rows[j].id)
  }

  /** findRecentCasesByLawyer / findRecentCasesByClient with PageRequest.of(0, limit). */
  ghost function FindRecent(cases: map<CaseId, CaseRecord>, side: Side, user: UserId, limit: nat): (r: seq<CaseRecord>)
    ensures IsRecentPage(cases, side, user, limit, r)
  {
    var ids := Recent(cases, ByParty(cases, side, user), limit);
    var r := seq(|ids|, i requires 0 <= i < |ids| => cases[ids[i]]);
    RowsOfRecentPage(cases, side, user, limit, ids, r);
    r
  }

  /** The rows of the recent ids form a recent page. */
  lemma RowsOfRecentPage(cases: map<CaseId, CaseRecord>, side: Side, user: UserId, limit: nat,
                         ids: seq<CaseId>, rows: seq<CaseRecord>)
    requires ids == Recent(cases, ByParty(cases, side, user), limit)
    requires |rows| == |ids| && forall i :: 0 <= i < |ids| ==> rows[i] == cases[ids[i]]
    ensures IsRecentPage(cases, side, user, limit, rows)
  {
    var all := ByParty(cases, side, user);
    assert forall i :: 0 <= i < |rows| ==> rows[i] in cases.Values && PartyOf(rows[i], side) == user by {
      forall i | 0 <= i < |rows| ensures rows[i] in cases.Values && PartyOf(rows[i], side) == user {
        assert ids[i] in all;
      }
    }
    forall i, x | 0 <= i < |rows| && x in all && cases[x] !in rows
      ensures cases[x].updatedAt <= rows[i].updatedAt
    {
      assert x !in ids;
    }
    if RowsKeyedById(cases) {
      forall i, j | 0 <= i < j < |rows| ensures rows[i].id != rows[j].id {
        assert ids[i] in all && ids[j] in all;
        assert rows[i].id == ids[i] && rows[j].id == ids[j];
      }
    }
  }

  /** When the page is at least as large as the party's case count, the
      recent ids are every one of the party's cases. */
  lemma RecentComplete(cases: map<CaseId, CaseRecord>, all: set<CaseId>, limit: nat)
    requires all <= cases.Keys && |all| <= limit
    ensures forall id :: id in all ==> id in Recent(cases, all, limit)
  {
    var ids := Recent(cases, all, limit);
    forall id | id in all ensures id in ids {
      if id !in ids {
        var s := set i | 0 <= i < |ids| :: ids[i];
        assert s <= all - {id};
        SeqDistinctCard(ids);
        assert |s| == |ids| == |all|;
        assert |all - {id}| < |all|;
        SubsetCard(s, all - {id});
        assert false;
      }
    }
  }

  /** A page at least as large as the party's case count holds every one of
      its cases. */
  lemma FindRecentComplete(cases: map<CaseId, CaseRecord>, side: Side, user: UserId, limit: nat)
    requires CountByParty(cases, side, user) <= limit
    ensures forall id :: id in ByParty(cases, side, user) ==> cases[id] in FindRecent(cases, side, user, limit)
  {
    var all := ByParty(cases, side, user);
    var ids := Recent(cases, all, limit);
    var rows := FindRecent(cases, side, user, limit);
    RecentComplete(cases, all, limit);
    forall id | id in all ensures cases[id] in rows {
      var k :| 0 <= k < |ids| && ids[k] == id;
      assert rows[k] == cases[id];
    }
  }

  lemma {:induction false} SeqDistinctCard(s: seq<CaseId>)
    requires forall i, j :: 0 <= i < j < |s| ==> s[i] != s[j]
    ensures |set i | 0 <= i < |s| :: s[i]| == |s|
  {
    if |s| > 0 {
      var init := s[..|s| - 1];
      SeqDistinctCard(init);
      var a := set i | 0 <= i < |init| :: init[i];
      var b := set i | 0 <= i < |s| :: s[i];
      assert b == a + {s[|s| - 1]};
      assert s[|s| - 1] !in a;
    }
  }

  lemma SubsetCard(a: set<CaseId>, b: set<CaseId>)
    requires a <= b
    ensures |a| <= |b|
  {
    assert b == a + (b - a);
  }
}
