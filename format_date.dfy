/** `getRelativeTime` of `formatDate.js`: an elapsed time in milliseconds divided down by
    1000, 60, 60 and 24 with flooring, and the first bucket of days, hours, minutes that is
    non-zero named; beyond seven days the short calendar date is shown instead. */
module FormatDate {
  import opened Text
  import opened Wrappers

  const MsPerSecond: int := 1000
  const MsPerMinute: int := 60 * MsPerSecond
  const MsPerHour: int := 60 * MsPerMinute
  const MsPerDay: int := 24 * MsPerHour

  /** Days beyond this count are shown as a calendar date. */
  const RelativeDays: int := 7

  /** The branch taken, with the floored count it prints. */
  datatype RelativeTime = JustNow | MinutesAgo(minutes: int) | HoursAgo(hours: int) | DaysAgo(days: int) | ShortDate

  /** The cascade of the source: `elapsedMs` is the current time minus the given date, which
      is negative for a date in the future. */
  function Bucket(elapsedMs: int): (b: RelativeTime)
    ensures b == JustNow <==> elapsedMs < MsPerMinute
    ensures b.MinutesAgo? <==> MsPerMinute <= elapsedMs < MsPerHour
    ensures b.HoursAgo? <==> MsPerHour <= elapsedMs < MsPerDay
    ensures b.DaysAgo? <==> MsPerDay <= elapsedMs < (RelativeDays + 1) * MsPerDay
    ensures b == ShortDate <==> elapsedMs >= (RelativeDays + 1) * MsPerDay
    ensures b.MinutesAgo? ==> b.minutes == elapsedMs / MsPerMinute && 1 <= b.minutes < 60
    ensures b.HoursAgo? ==> b.hours == elapsedMs / MsPerHour && 1 <= b.hours < 24
    ensures b.DaysAgo? ==> b.days == elapsedMs / MsPerDay && 1 <= b.days <= RelativeDays
  {
    // Dafny's division is Euclidean, which for a positive divisor is JavaScript's
    // `Math.floor(x / d)` also on negative `x`.
    var seconds := elapsedMs / 1000;
    var minutes := seconds / 60;
    var hours := minutes / 60;
    var days := hours / 24;
    assert minutes == elapsedMs / MsPerMinute;
    assert hours == elapsedMs / MsPerHour;
    assert days == elapsedMs / MsPerDay;
    if days > RelativeDays then ShortDate
    else if days > 0 then DaysAgo(days)
    else if hours > 0 then HoursAgo(hours)
    else if minutes > 0 then MinutesAgo(minutes)
    else JustNow
  }

  /** The text shown; `formatShort` stands for `formatDateShort` applied to the original date
      string, whose locale formatting is not part of this model. */
  function RelativeTimeText(elapsedMs: int, formatShort: string): (r: string)
    ensures Bucket(elapsedMs) == ShortDate ==> r == formatShort
    ensures Bucket(elapsedMs) == JustNow ==> r == "Just now"
  {
    match Bucket(elapsedMs)
    case JustNow => "Just now"
    case MinutesAgo(m) => IntToString(m) + "m ago"
    case HoursAgo(h) => IntToString(h) + "h ago"
    case DaysAgo(d) => IntToString(d) + "d ago"
    case ShortDate => formatShort
  }

  /** The branches in order of age: 0 for "Just now" up to 4 for the calendar date. */
  function Rank(b: RelativeTime): nat {
    match b
    case JustNow => 0
    case MinutesAgo(_) => 1
    case HoursAgo(_) => 2
    case DaysAgo(_) => 3
    case ShortDate => 4
  }

  /** An older date never lands in a younger branch, and within a branch its count is no
      smaller. */
  lemma BucketMonotone(e1: int, e2: int)
    requires e1 <= e2
    ensures Rank(Bucket(e1)) <= Rank(Bucket(e2))
    ensures Bucket(e1).MinutesAgo? && Bucket(e2).MinutesAgo? ==> Bucket(e1).minutes <= Bucket(e2).minutes
    ensures Bucket(e1).HoursAgo? && Bucket(e2).HoursAgo? ==> Bucket(e1).hours <= Bucket(e2).hours
    ensures Bucket(e1).DaysAgo? && Bucket(e2).DaysAgo? ==> Bucket(e1).days <= Bucket(e2).days
  {
    assert e1 / MsPerMinute <= e2 / MsPerMinute;
    assert e1 / MsPerHour <= e2 / MsPerHour;
    assert e1 / MsPerDay <= e2 / MsPerDay;
  }

  /** The suffix of a relative text tells its branch. */
  lemma TextNamesItsBranch(elapsedMs: int, formatShort: string)
    ensures var r := RelativeTimeText(elapsedMs, formatShort);
      && (Bucket(elapsedMs).MinutesAgo? ==> |r| >= 6 && r[|r| - 5..] == "m ago" && ParseInt(r[..|r| - 5]) == Some(Bucket(elapsedMs).minutes))
      && (Bucket(elapsedMs).HoursAgo? ==> |r| >= 6 && r[|r| - 5..] == "h ago" && ParseInt(r[..|r| - 5]) == Some(Bucket(elapsedMs).hours))
      && (Bucket(elapsedMs).DaysAgo? ==> |r| >= 6 && r[|r| - 5..] == "d ago" && ParseInt(r[..|r| - 5]) == Some(Bucket(elapsedMs).days))
  {
    var r := RelativeTimeText(elapsedMs, formatShort);
    match Bucket(elapsedMs)
    case MinutesAgo(m) =>
      assert r == IntToString(m) + "m ago";
      assert r[..|r| - 5] == IntToString(m);
      IntToStringRoundTrip(m);
    case HoursAgo(h) =>
      assert r == IntToString(h) + "h ago";
      assert r[..|r| - 5] == IntToString(h);
      IntToStringRoundTrip(h);
    case DaysAgo(d) =>
      assert r == IntToString(d) + "d ago";
      assert r[..|r| - 5] == IntToString(d);
      IntToStringRoundTrip(d);
    case _ =>
  }

  lemma RelativeTimeExamples(formatShort: string)
    ensures RelativeTimeText(90_000, formatShort) == "1m ago"
    ensures RelativeTimeText(59_999, formatShort) == "Just now"
    ensures RelativeTimeText(-5_000_000, formatShort) == "Just now"
    ensures RelativeTimeText(2 * MsPerHour + 1, formatShort) == "2h ago"
    ensures RelativeTimeText(7 * MsPerDay, formatShort) == "7d ago"
    ensures RelativeTimeText(8 * MsPerDay - 1, formatShort) == "7d ago"
    ensures RelativeTimeText(8 * MsPerDay, formatShort) == formatShort
  {
    assert Bucket(90_000) == MinutesAgo(1);
    assert Bucket(2 * MsPerHour + 1) == HoursAgo(2);
    assert Bucket(7 * MsPerDay) == DaysAgo(7);
    assert Bucket(8 * MsPerDay - 1) == DaysAgo(7);
  }
}
