/** DashboardService.java: the statistics, recent cases and activity feed of
    the lawyer and client dashboards. LocalDateTime.now() is the parameter
    `now`; the "MMM dd, yyyy" date text is the parameter `formatDate`. */
module DashboardService {
  import opened Text
  import opened Users
  import opened CaseEntity
  import opened CaseRepository
  import opened Documents
  import opened DocumentRepository
  import opened UserRepository

  // ---------------------------------------------------------------------------
  // Activity times
  // ---------------------------------------------------------------------------

  const SecondsPerHour: nat := 3600
  const SecondsPerDay: nat := 86400

  /** Java's long division by a positive divisor, which truncates toward
      zero (Duration.toHours and Duration.toDays). */
  function TruncDiv(a: int, b: int): (q: int)
    requires b > 0
    ensures 0 <= a ==> q == a / b
    ensures a < 0 ==> -q == (-a) / b && q <= 0
  {
    if a >= 0 then a / b else -((-a) / b)
  }

  /** formatActivityTime: how long ago `t` was, seen at `now`. Whole hours
      and days are counted toward zero, so every time after `now` is less
      than an hour ago. */
  function FormatActivityTime(t: Time, now: Time, formatDate: Time -> string): (r: string)
    ensures now - t < 3600 ==> r == "Just now"
    ensures 3600 <= now - t < 7200 ==> r == "1 hour ago"
    ensures 7200 <= now - t < 86400 ==> r == NatToString((now - t) / 3600) + " hours ago"
    ensures 86400 <= now - t < 172800 ==> r == "Yesterday"
    ensures 172800 <= now - t < 604800 ==> r == NatToString((now - t) / 86400) + " days ago"
    ensures 604800 <= now - t ==> r == formatDate(t)
  {
    var hoursDiff := TruncDiv(now - t, SecondsPerHour);
    var daysDiff := TruncDiv(now - t, SecondsPerDay);
    if hoursDiff < 1 then "Just now"
    else if hoursDiff < 24 then NatToString(hoursDiff) + " hour" + (if hoursDiff > 1 then "s" else "") + " ago"
    else if daysDiff == 1 then "Yesterday"
    else if daysDiff < 7 then NatToString(daysDiff) + " days ago"
    else formatDate(t)
  }

  /** A moment in the future always reads "Just now". */
  lemma FutureIsJustNow(t: Time, now: Time, formatDate: Time -> string)
    requires now < t
    ensures FormatActivityTime(t, now, formatDate) == "Just now"
  {
  }

  /** Within the hour buckets the text names the number of whole hours: two
      moments with the same text are the same number of hours old. */
  lemma HoursTextNamesHours(t1: Time, t2: Time, now: Time, formatDate: Time -> string)
    requires 7200 <= now - t1 < 86400 && 7200 <= now - t2 < 86400
    requires FormatActivityTime(t1, now, formatDate) == FormatActivityTime(t2, now, formatDate)
    ensures (now - t1) / 3600 == (now - t2) / 3600
  {
    var a := NatToString((now - t1) / 3600);
    var b := NatToString((now - t2) / 3600);
    var suffix := " hours ago";
    assert a + suffix == b + suffix;
    assert |a| == |b|;
    assert a == (a + suffix)[..|a|] == (b + suffix)[..|b|] == b;
    NatToStringInjective((now - t1) / 3600, (now - t2) / 3600);
  }

  // ---------------------------------------------------------------------------
  // Activities
  // ---------------------------------------------------------------------------

  /** An ActivityResponse. */
  datatype Activity = Activity(
    id: CaseId,
    kind: string,
    title: string,
    description: string,
    time: string,
    caseNumber: string)

  /** A hearing that is set and strictly after now. */
  predicate HearingAhead(c: CaseRecord, now: Time)
  {
    c.nextHearing.Some? && c.nextHearing.value > now
  }

  /** The activity a case shows: a hearing ahead comes first, then a closed
      case, then an active one, and any other case is new. */
  function ActivityFor(c: CaseRecord, now: Time, formatDate: Time -> string): (a: Activity)
    ensures a.id == c.id && a.caseNumber == c.caseNumber
    ensures a.kind == "hearing" <==> HearingAhead(c, now)
    ensures HearingAhead(c, now) ==>
      a.title == "Upcoming Hearing" && a.description == "Court hearing scheduled" && a.time == "Just now"
    ensures !HearingAhead(c, now) ==> a.description == c.title
    ensures !HearingAhead(c, now) && c.status == CLOSED ==>
      a.kind == "completed" && a.title == "Case Closed" && a.time == FormatActivityTime(c.updatedAt, now, formatDate)
    ensures !HearingAhead(c, now) && c.status == ACTIVE ==>
      a.kind == "case_update" && a.title == "Case Updated" && a.time == FormatActivityTime(c.updatedAt, now, formatDate)
    ensures !HearingAhead(c, now) && c.status == PENDING ==>
      a.kind == "case_update" && a.title == "New Case" && a.time == FormatActivityTime(c.createdAt, now, formatDate)
  {
    if HearingAhead(c, now) then
      FutureIsJustNow(c.nextHearing.value, now, formatDate);
      Activity(c.id, "hearing", "Upcoming Hearing", "Court hearing scheduled",
               FormatActivityTime(c.nextHearing.value, now, formatDate), c.caseNumber)
    else if c.status == CLOSED then
      Activity(c.id, "completed", "Case Closed", c.title, FormatActivityTime(c.updatedAt, now, formatDate), c.caseNumber)
    else if c.status == ACTIVE then
      Activity(c.id, "case_update", "Case Updated", c.title, FormatActivityTime(c.updatedAt, now, formatDate), c.caseNumber)
    else
      Activity(c.id, "case_update", "New Case", c.title, FormatActivityTime(c.createdAt, now, formatDate), c.caseNumber)
  }

  /** The stream map of getRecentActivities: each activity is filled field by
      field from its case, one per case and in the cases' order. */
  method ActivitiesOf(recent: seq<CaseRecord>, now: Time, formatDate: Time -> string) returns (activities: seq<Activity>)
    ensures |activities| == |recent|
    ensures forall i :: 0 <= i < |recent| ==> activities[i] == ActivityFor(recent[i], now, formatDate)
  {
    activities := [];
    for i := 0 to |recent|
      invariant |activities| == i
      invariant forall k :: 0 <= k < i ==> activities[k] == ActivityFor(recent[k], now, formatDate)
    {
      var c := recent[i];
      var activity := Activity(c.id, "", "", "", "", c.caseNumber);
      if c.nextHearing.Some? && c.nextHearing.value > now {
        activity := activity.(kind := "hearing", title := "Upcoming Hearing", description := "Court hearing scheduled",
                              time := FormatActivityTime(c.nextHearing.value, now, formatDate));
      } else if c.status == CLOSED {
        activity := activity.(kind := "completed", title := "Case Closed", description := c.title,
                              time := FormatActivityTime(c.updatedAt, now, formatDate));
      } else if c.status == ACTIVE {
        activity := activity.(kind := "case_update", title := "Case Updated", description := c.title,
                              time := FormatActivityTime(c.updatedAt, now, formatDate));
      } else {
        activity := activity.(kind := "case_update", title := "New Case", description := c.title,
                              time := FormatActivityTime(c.createdAt, now, formatDate));
      }
      activities := activities + [activity];
    }
  }

  /** getRecentActivities: one activity for each of the user's ten most
      recently updated cases, a lawyer's or a client's by role. */
  ghost function GetRecentActivities(cases: map<CaseId, CaseRecord>, user: User, now: Time, formatDate: Time -> string)
    : (r: seq<Activity>)
    ensures |r| <= 10 && |r| <= CountByParty(cases, SideOf(user.role), user.id)
    ensures var rows := FindRecent(cases, SideOf(user.role), user.id, 10);
      |r| == |rows| && forall i :: 0 <= i < |r| ==> r[i] == ActivityFor(rows[i], now, formatDate)
  {
    var recent := FindRecent(cases, SideOf(user.role), user.id, 10);
    seq(|recent|, i requires 0 <= i < |recent| => ActivityFor(recent[i], now, formatDate))
  }

  // ---------------------------------------------------------------------------
  // Appointments
  // ---------------------------------------------------------------------------

  /** The number of rows whose hearing is ahead (the stream's filter and
      count). */
  function UpcomingCount(rows: seq<CaseRecord>, now: Time): (n: nat)
    ensures n == |set i | 0 <= i < |rows| && HearingAhead(rows[i], now)|
    ensures n <= |rows|
    ensures n == 0 <==> forall i :: 0 <= i < |rows| ==> !HearingAhead(rows[i], now)
    decreases |rows|
  {
    if rows == [] then 0
    else
      var k := |rows| - 1;
      var init := rows[..k];
      assert (set i | 0 <= i < |init| && HearingAhead(init[i], now))
          == (set i | 0 <= i < k && HearingAhead(rows[i], now));
      assert (set i | 0 <= i < |rows| && HearingAhead(rows[i], now))
          == (set i | 0 <= i < k && HearingAhead(rows[i], now)) + (if HearingAhead(rows[k], now) then {k} else {});
      UpcomingCount(init, now) + (if HearingAhead(rows[k], now) then 1 else 0)
  }

  /** Fewer hearings are ahead the later one looks. */
  lemma {:induction false} UpcomingCountAntitone(rows: seq<CaseRecord>, earlier: Time, later: Time)
    requires earlier <= later
    ensures UpcomingCount(rows, later) <= UpcomingCount(rows, earlier)
    decreases |rows|
  {
    if rows != [] {
      UpcomingCountAntitone(rows[..|rows| - 1], earlier, later);
    }
  }

  /** countUpcomingAppointments: the hearings ahead among the client's 100
      most recently updated cases; for a client with at most 100 cases,
      exactly the client's cases with a hearing ahead. */
  ghost function CountUpcomingAppointments(cases: map<CaseId, CaseRecord>, client: UserId, now: Time): (n: nat)
    ensures n <= 100 && n <= CountByParty(cases, ClientSide, client)
    ensures exists rows :: IsRecentPage(cases, ClientSide, client, 100, rows)
                           && n == |set i | 0 <= i < |rows| && HearingAhead(rows[i], now)|
    ensures CountByParty(cases, ClientSide, client) <= 100 ==>
      n == |set id | id in ByParty(cases, ClientSide, client) && HearingAhead(cases[id], now)|
  {
    var rows := FindRecent(cases, ClientSide, client, 100);
    assert IsRecentPage(cases, ClientSide, client, 100, rows);
    if CountByParty(cases, ClientSide, client) <= 100 then
      HearingsAheadOfCompletePage(cases, client, now);
      UpcomingCount(rows, now)
    else UpcomingCount(rows, now)
  }

  /** The positions of ids whose case has a hearing ahead. */
  ghost function AheadPositions(cases: map<CaseId, CaseRecord>, ids: seq<CaseId>, now: Time): set<int>
  {
    set i | 0 <= i < |ids| && ids[i] in cases && HearingAhead(cases[ids[i]], now)
  }

  /** The ids among ids whose case has a hearing ahead. */
  ghost function AheadIds(cases: map<CaseId, CaseRecord>, ids: seq<CaseId>, now: Time): set<CaseId>
  {
    set x | x in ids && x in cases && HearingAhead(cases[x], now)
  }

  /** With every case of the client on the page, the rows with a hearing
      ahead are as many as the client's cases with a hearing ahead. */
  lemma HearingsAheadOfCompletePage(cases: map<CaseId, CaseRecord>, client: UserId, now: Time)
    requires CountByParty(cases, ClientSide, client) <= 100
    ensures var rows := FindRecent(cases, ClientSide, client, 100);
      |set i | 0 <= i < |rows| && HearingAhead(rows[i], now)|
      == |set id | id in ByParty(cases, ClientSide, client) && HearingAhead(cases[id], now)|
  {
    var ids := Recent(cases, ByParty(cases, ClientSide, client), 100);
    var rows := FindRecent(cases, ClientSide, client, 100);
    assert |rows| == |ids| && forall i :: 0 <= i < |ids| ==> ids[i] in cases && rows[i] == cases[ids[i]];
    RowsAheadArePositions(cases, ids, rows, now);
    AheadIdsOfCompletePage(cases, client, now);
    HearingsAheadOfIds(cases, ids, now);
  }

  /** The rows read from ids with a hearing ahead sit at the positions of
      the ids with a hearing ahead. */
  lemma RowsAheadArePositions(cases: map<CaseId, CaseRecord>, ids: seq<CaseId>, rows: seq<CaseRecord>, now: Time)
    requires |rows| == |ids|
    requires forall i :: 0 <= i < |ids| ==> ids[i] in cases && rows[i] == cases[ids[i]]
    ensures (set i | 0 <= i < |rows| && HearingAhead(rows[i], now)) == AheadPositions(cases, ids, now)
  {
  }

  /** With every case of the client on the page, the recent ids with a
      hearing ahead are the client's cases with a hearing ahead. */
  lemma AheadIdsOfCompletePage(cases: map<CaseId, CaseRecord>, client: UserId, now: Time)
    requires CountByParty(cases, ClientSide, client) <= 100
    ensures var all := ByParty(cases, ClientSide, client);
      AheadIds(cases, Recent(cases, all, 100), now) == (set id | id in all && HearingAhead(cases[id], now))
  {
    var all := ByParty(cases, ClientSide, client);
    var ids := Recent(cases, all, 100);
    RecentComplete(cases, all, 100);
    assert forall i :: 0 <= i < |ids| ==> ids[i] in all;
  }

  /** Counting the positions of distinct ids with a hearing ahead counts the
      ids themselves. */
  lemma {:induction false} HearingsAheadOfIds(cases: map<CaseId, CaseRecord>, ids: seq<CaseId>, now: Time)
    requires forall i, j :: 0 <= i < j < |ids| ==> ids[i] != ids[j]
    ensures |AheadPositions(cases, ids, now)| == |AheadIds(cases, ids, now)|
    decreases |ids|
  {
    if ids != [] {
      var init := ids[..|ids| - 1];
      HearingsAheadOfIds(cases, init, now);
      AheadPositionsSnoc(cases, ids, now);
      AheadIdsSnoc(cases, ids, now);
    }
  }

  /** Dropping the last id drops at most its own position. */
  lemma AheadPositionsSnoc(cases: map<CaseId, CaseRecord>, ids: seq<CaseId>, now: Time)
    requires ids != []
    ensures var k := |ids| - 1;
      var ahead := ids[k] in cases && HearingAhead(cases[ids[k]], now);
      |AheadPositions(cases, ids, now)| == |AheadPositions(cases, ids[..k], now)| + (if ahead then 1 else 0)
  {
    var k := |ids| - 1;
    var init := ids[..k];
    var ahead := ids[k] in cases && HearingAhead(cases[ids[k]], now);
    assert AheadPositions(cases, ids, now) == AheadPositions(cases, init, now) + (if ahead then {k} else {}) by {
      assert forall i :: 0 <= i < k ==> init[i] == ids[i];
    }
    assert k !in AheadPositions(cases, init, now);
  }

  /** Dropping the last of distinct ids drops at most that id. */
  lemma AheadIdsSnoc(cases: map<CaseId, CaseRecord>, ids: seq<CaseId>, now: Time)
    requires ids != []
    requires forall i, j :: 0 <= i < j < |ids| ==> ids[i] != ids[j]
    ensures var k := |ids| - 1;
      var ahead := ids[k] in cases && HearingAhead(cases[ids[k]], now);
      |AheadIds(cases, ids, now)| == |AheadIds(cases, ids[..k], now)| + (if ahead then 1 else 0)
  {
    var k := |ids| - 1;
    var init := ids[..k];
    var last := ids[k];
    var ahead := last in cases && HearingAhead(cases[last], now);
    assert AheadIds(cases, ids, now) == AheadIds(cases, init, now) + (if ahead then {last} else {}) by {
      assert ids == init + [last];
    }
    assert last !in AheadIds(cases, init, now) by {
      assert last !in init;
    }
  }

  /** A client with at most 100 cases sees an appointment whenever one of
      their cases has a hearing ahead. */
  lemma AppointmentSeen(cases: map<CaseId, CaseRecord>, client: UserId, now: Time, id: CaseId)
    requires CountByParty(cases, ClientSide, client) <= 100
    requires id in cases && cases[id].client == client && HearingAhead(cases[id], now)
    ensures CountUpcomingAppointments(cases, client, now) >= 1
  {
    var ahead := set x | x in ByParty(cases, ClientSide, client) && HearingAhead(cases[x], now);
    assert id in ahead;
    assert CountUpcomingAppointments(cases, client, now) == |ahead|;
  }

  // ---------------------------------------------------------------------------
  // Statistics
  // ---------------------------------------------------------------------------

  /** DashboardStatsResponse. Each dashboard fills the four slots with its
      own counts. */
  datatype DashboardStats = DashboardStats(activeCases: nat, totalClients: nat, monthlyRevenue: real, pendingTasks: nat)

  /** calculatePendingTasks: the lawyer's PENDING cases. */
  function CalculatePendingTasks(cases: map<CaseId, CaseRecord>, lawyer: UserId): (n: nat)
    ensures n == |set id | id in cases && cases[id].lawyer == lawyer && cases[id].status == PENDING|
  {
    assert ByPartyAndStatus(cases, LawyerSide, lawyer, PENDING)
        == set id | id in cases && cases[id].lawyer == lawyer && cases[id].status == PENDING;
    CountByPartyAndStatus(cases, LawyerSide, lawyer, PENDING)
  }

  /** getLawyerDashboardStats: the lawyer's ACTIVE cases, every client of the
      firm, the revenue `monthlyRevenue` and the PENDING cases. */
  function GetLawyerDashboardStats(users: map<UserId, User>, cases: map<CaseId, CaseRecord>, lawyer: UserId, monthlyRevenue: real)
    : (r: DashboardStats)
    ensures r.activeCases == CountByPartyAndStatus(cases, LawyerSide, lawyer, ACTIVE)
    ensures r.totalClients == |AllByRole(users, CLIENT)|
    ensures r.pendingTasks == CalculatePendingTasks(cases, lawyer)
    ensures r.activeCases + r.pendingTasks <= CountByParty(cases, LawyerSide, lawyer)
  {
    StatusCountsPartition(cases, LawyerSide, lawyer);
    ClientQueriesAgree(users, "", "");
    DashboardStats(CountByPartyAndStatus(cases, LawyerSide, lawyer, ACTIVE), CountClients(users),
                   monthlyRevenue, CalculatePendingTasks(cases, lawyer))
  }

  /** getClientDashboardStats: the "active" slot holds every case of the
      client whatever its status, the "clients" slot the client's documents,
      and revenue and pending tasks are always zero. */
  function GetClientDashboardStats(cases: map<CaseId, CaseRecord>, documents: map<DocId, DocumentRecord>, client: UserId)
    : (r: DashboardStats)
    ensures r.monthlyRevenue == 0.0 && r.pendingTasks == 0
    ensures r.activeCases == CountByPartyAndStatus(cases, ClientSide, client, ACTIVE)
                           + CountByPartyAndStatus(cases, ClientSide, client, PENDING)
                           + CountByPartyAndStatus(cases, ClientSide, client, CLOSED)
    ensures r.totalClients == |OfCaseClient(documents, cases, client)|
  {
    StatusCountsPartition(cases, ClientSide, client);
    DashboardStats(CountByParty(cases, ClientSide, client), CountDocumentsByClient(documents, cases, client), 0.0, 0)
  }

  /** The client's "active" count exceeds the number of ACTIVE cases by
      exactly the PENDING and CLOSED ones. */
  lemma ClientActiveCountsEveryCase(cases: map<CaseId, CaseRecord>, documents: map<DocId, DocumentRecord>, client: UserId)
    ensures GetClientDashboardStats(cases, documents, client).activeCases >= CountByPartyAndStatus(cases, ClientSide, client, ACTIVE)
    ensures GetClientDashboardStats(cases, documents, client).activeCases == CountByPartyAndStatus(cases, ClientSide, client, ACTIVE)
        <==> ByPartyAndStatus(cases, ClientSide, client, PENDING) == {} && ByPartyAndStatus(cases, ClientSide, client, CLOSED) == {}
  {
  }

  // ---------------------------------------------------------------------------
  // Full dashboards
  // ---------------------------------------------------------------------------

  /** LawyerDashboardResponse, with the recent cases as rows. */
  datatype LawyerDashboard = LawyerDashboard(
    activeCases: nat, pendingCases: nat, closedCases: nat, totalClients: nat,
    monthlyRevenue: real, pendingTasks: nat, recentCases: seq<CaseRecord>)

  /** ClientDashboardResponse, with the recent cases as rows. */
  datatype ClientDashboard = ClientDashboard(
    activeCases: nat, pendingCases: nat, closedCases: nat, totalDocuments: nat,
    upcomingAppointments: nat, unreadMessages: nat, recentCases: seq<CaseRecord>)

  /** getLawyerFullDashboard: the three status counts, the pending tasks
      (the pending count again) and at most four most recent cases. */
  ghost function GetLawyerFullDashboard(users: map<UserId, User>, cases: map<CaseId, CaseRecord>, lawyer: UserId, monthlyRevenue: real)
    : (r: LawyerDashboard)
    ensures r.activeCases + r.pendingCases + r.closedCases == CountByParty(cases, LawyerSide, lawyer)
    ensures r.pendingTasks == r.pendingCases
    ensures r.totalClients == |AllByRole(users, CLIENT)|
    ensures |r.recentCases| <= 4 && (|r.recentCases| < 4 ==> |r.recentCases| == CountByParty(cases, LawyerSide, lawyer))
    ensures forall i :: 0 <= i < |r.recentCases| ==> r.recentCases[i] in cases.Values && r.recentCases[i].lawyer == lawyer
    ensures IsRecentPage(cases, LawyerSide, lawyer, 4, r.recentCases)
  {
    StatusCountsPartition(cases, LawyerSide, lawyer);
    ClientQueriesAgree(users, "", "");
    LawyerDashboard(
      CountByPartyAndStatus(cases, LawyerSide, lawyer, ACTIVE),
      CountByPartyAndStatus(cases, LawyerSide, lawyer, PENDING),
      CountByPartyAndStatus(cases, LawyerSide, lawyer, CLOSED),
      CountClients(users), monthlyRevenue, CalculatePendingTasks(cases, lawyer),
      FindRecent(cases, LawyerSide, lawyer, 4))
  }

  /** getClientFullDashboard: the three status counts, the documents, the
      appointments ahead, no unread messages and at most six most recent
      cases. */
  ghost function GetClientFullDashboard(cases: map<CaseId, CaseRecord>, documents: map<DocId, DocumentRecord>,
                                        client: UserId, now: Time)
    : (r: ClientDashboard)
    ensures r.activeCases + r.pendingCases + r.closedCases == CountByParty(cases, ClientSide, client)
    ensures r.totalDocuments == CountDocumentsByClient(documents, cases, client)
    ensures r.upcomingAppointments <= r.activeCases + r.pendingCases + r.closedCases
    ensures r.upcomingAppointments == CountUpcomingAppointments(cases, client, now)
    ensures r.unreadMessages == 0
    ensures |r.recentCases| <= 6 && (|r.recentCases| < 6 ==> |r.recentCases| == CountByParty(cases, ClientSide, client))
    ensures forall i :: 0 <= i < |r.recentCases| ==> r.recentCases[i] in cases.Values && r.recentCases[i].client == client
    ensures IsRecentPage(cases, ClientSide, client, 6, r.recentCases)
  {
    StatusCountsPartition(cases, ClientSide, client);
    ClientDashboard(
      CountByPartyAndStatus(cases, ClientSide, client, ACTIVE),
      CountByPartyAndStatus(cases, ClientSide, client, PENDING),
      CountByPartyAndStatus(cases, ClientSide, client, CLOSED),
      CountDocumentsByClient(documents, cases, client),
      CountUpcomingAppointments(cases, client, now), 0,
      FindRecent(cases, ClientSide, client, 6))
  }
}
