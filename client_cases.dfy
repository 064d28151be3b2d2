/** ClientCases.tsx: how the client's case list shows the last update, the
    status and the lawyer of each case. Times are milliseconds since the
    epoch; an updatedAt text that `new Date` cannot read is None. */
module ClientCases {
  import opened Wrappers
  import opened Text
  import opened CaseEntity
  import opened DashboardService

  const MsPerHour: nat := 3600000
  const MsPerDay: nat := 86400000

  /** formatLastUpdated: whole hours and days since the update, rounded
      down. An unreadable date makes both NaN, which fails every test and
      falls through to the last line. */
  function FormatLastUpdated(updatedAt: Option<int>, now: int): (r: string)
    ensures updatedAt.None? ==> r == "NaN days ago"
    ensures updatedAt.Some? && now - updatedAt.value < MsPerHour ==> r == "Just now"
    ensures updatedAt.Some? && MsPerHour <= now - updatedAt.value < 2 * MsPerHour ==> r == "1 hour ago"
    ensures updatedAt.Some? && 2 * MsPerHour <= now - updatedAt.value < MsPerDay ==>
      r == NatToString((now - updatedAt.value) / MsPerHour) + " hours ago"
    ensures updatedAt.Some? && MsPerDay <= now - updatedAt.value < 2 * MsPerDay ==> r == "1 day ago"
    ensures updatedAt.Some? && 2 * MsPerDay <= now - updatedAt.value ==>
      r == NatToString((now - updatedAt.value) / MsPerDay) + " days ago"
  {
    if updatedAt.None? then "NaN days ago"
    else
      var diff := now - updatedAt.value;
      var hours := diff / MsPerHour;
      var days := diff / MsPerDay;
      if hours < 1 then "Just now"
      else if hours < 24 then NatToString(hours) + " hour" + (if hours > 1 then "s" else "") + " ago"
      else if days == 1 then "1 day ago"
      else NatToString(days) + " days ago"
  }

  /** Every update in the future, however far, reads "Just now". */
  lemma FutureUpdateIsJustNow(updatedAt: int, now: int)
    requires now < updatedAt
    ensures FormatLastUpdated(Some(updatedAt), now) == "Just now"
  {
  }

  /** Within a day the list shows the same text as the dashboard's activity
      feed for the same moment; from one to two days old they differ, "1 day
      ago" against "Yesterday"; and past a week the list keeps counting days
      where the feed prints a date. */
  lemma AgreesWithActivityTime(t: Time, now: Time, formatDate: Time -> string)
    ensures now - t < 86400 ==> FormatLastUpdated(Some(t * 1000), now * 1000) == FormatActivityTime(t, now, formatDate)
    ensures 86400 <= now - t < 172800 ==>
      FormatLastUpdated(Some(t * 1000), now * 1000) == "1 day ago" && FormatActivityTime(t, now, formatDate) == "Yesterday"
    ensures 604800 <= now - t ==>
      FormatLastUpdated(Some(t * 1000), now * 1000) == NatToString((now - t) / 86400) + " days ago"
  {
    var d := now - t;
    assert now * 1000 - t * 1000 == d * 1000;
    if 0 <= d {
      assert (d * 1000) / MsPerHour == d / 3600 && (d * 1000) / MsPerDay == d / 86400 by {
        var h := d / 3600;
        assert h * 3600 <= d < h * 3600 + 3600;
        assert h * MsPerHour <= d * 1000 < h * MsPerHour + MsPerHour;
        var n := d / 86400;
        assert n * 86400 <= d < n * 86400 + 86400;
        assert n * MsPerDay <= d * 1000 < n * MsPerDay + MsPerDay;
      }
    }
  }

  /** The status badge: the status name in lower case. */
  function DisplayStatus(status: Status): (r: string)
    ensures r == "active" <==> status == ACTIVE
    ensures r == "pending" <==> status == PENDING
    ensures r == "closed" <==> status == CLOSED
  {
    assert ToLower("ACTIVE") == "active" && ToLower("PENDING") == "pending" && ToLower("CLOSED") == "closed";
    ToLower(StatusName(status))
  }

  /** The lawyer shown on a case card: the lawyer's name, or "Pending
      Assignment" when there is no lawyer or the name is empty. */
  function DisplayLawyer(lawyerName: Option<string>): (r: string)
    ensures lawyerName.Some? && lawyerName.value != "" ==> r == lawyerName.value
    ensures lawyerName.None? || lawyerName.value == "" ==> r == "Pending Assignment"
    ensures r != ""
  {
    if lawyerName.Some? && lawyerName.value != "" then lawyerName.value else "Pending Assignment"
  }
}
