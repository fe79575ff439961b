/** The news list's relative-time label (`formatTimeAgo`): a millisecond
    difference `now - date` bucketed into days, hours or minutes with floor
    divisions, and printed as "<n>d ago", "<n>h ago" or "<n>m ago".

    Parsing the date string and reading the clock are outside the model: the
    difference of the two `getTime()` values is the input. */
module TimeAgo {
  import opened Wrappers
  import opened Decimal

  const MsPerMinute: int := 1000 * 60
  const MsPerHour: int := 1000 * 60 * 60
  const HoursPerDay: int := 24
  const MsPerDay: int := MsPerHour * HoursPerDay

  /** Which unit the label uses, and the count printed before it. */
  datatype Elapsed = DaysAgo(days: int) | HoursAgo(hours: int) | MinutesAgo(minutes: int)

  /** Flooring to whole hours and then to whole days is flooring to whole days. */
  lemma DaysFromHours(d: int)
    ensures (d / MsPerHour) / HoursPerDay == d / MsPerDay
  {
  }

  /** The branch `formatTimeAgo` takes for a difference of `diffMs` ms and
      the count it prints: whole days when at least one, otherwise whole
      hours when at least one, otherwise whole minutes, which are negative for
      a date in the future. */
  function Bucket(diffMs: int): (r: Elapsed)
    ensures r.DaysAgo? <==> diffMs >= MsPerDay
    ensures r.DaysAgo? ==> r.days == diffMs / MsPerDay && r.days >= 1
    ensures r.HoursAgo? <==> MsPerHour <= diffMs < MsPerDay
    ensures r.HoursAgo? ==> r.hours == diffMs / MsPerHour && 1 <= r.hours <= 23
    ensures r.MinutesAgo? <==> diffMs < MsPerHour
    ensures r.MinutesAgo? ==> r.minutes == diffMs / MsPerMinute && r.minutes <= 59
    ensures r.MinutesAgo? ==> (r.minutes < 0 <==> diffMs < 0)
  {
    var hours := diffMs / MsPerHour;
    var days := hours / HoursPerDay;
    DaysFromHours(diffMs);
    if days > 0 then DaysAgo(days)
    else if hours > 0 then HoursAgo(hours)
    else MinutesAgo(diffMs / MsPerMinute)
  }

  function UnitChar(e: Elapsed): char {
    match e
    case DaysAgo(_) => 'd'
    case HoursAgo(_) => 'h'
    case MinutesAgo(_) => 'm'
  }

  function Count(e: Elapsed): int {
    match e
    case DaysAgo(n) => n
    case HoursAgo(n) => n
    case MinutesAgo(n) => n
  }

  const AgoSuffix: string := " ago"

  /** The text of a label: the count, the unit letter and " ago". */
  function Label(e: Elapsed): string {
    IntToString(Count(e)) + [UnitChar(e)] + AgoSuffix
  }


  /** Reads a label back into the unit and count it shows. */
  function ParseLabel(s: string): Option<Elapsed> {
    if |s| < 6 || s[|s| - 4..] != AgoSuffix then None
    else
      var unit := s[|s| - 5];
      match ParseInt(s[..|s| - 5])
      case None => None
      case Some(n) =>
        if unit == 'd' then Some(DaysAgo(n))
        else if unit == 'h' then Some(HoursAgo(n))
        else if unit == 'm' then Some(MinutesAgo(n))
        else None
  }

  /** Every label reads back as the unit and count it was printed from, so
      distinct buckets never print the same text. */
  lemma LabelRoundTrip(e: Elapsed)
    ensures ParseLabel(Label(e)) == Some(e)
  {
    var digits := IntToString(Count(e));
    var s := Label(e);
    assert s[|s| - 4..] == AgoSuffix;
    assert s[|s| - 5] == UnitChar(e);
    assert s[..|s| - 5] == digits;
  }

  /** `formatTimeAgo`, given `now.getTime() - date.getTime()`: the label
      reads back as the bucket and count of the difference, and the count is
      printed in shortest form. */
  function FormatTimeAgo(diffMs: int): (s: string)
    ensures |s| >= 6 && CanonicalInt(s[..|s| - 5])
    ensures ParseLabel(s) == Some(Bucket(diffMs))
  {
    var e := Bucket(diffMs);
    LabelRoundTrip(e);
    assert Label(e)[..|Label(e)| - 5] == IntToString(Count(e));
    Label(e)
  }

  /** The contract of `FormatTimeAgo` fixes its text: any label with a
      shortest-form count that reads back as the difference's bucket is the
      one it prints. */
  lemma FormatTimeAgoIsExact(diffMs: int, s: string)
    requires |s| >= 6 && CanonicalInt(s[..|s| - 5])
    requires ParseLabel(s) == Some(Bucket(diffMs))
    ensures s == FormatTimeAgo(diffMs)
  {
    var e := Bucket(diffMs);
    CanonicalIntText(s[..|s| - 5], Count(e));
    assert s == s[..|s| - 5] + [s[|s| - 5]] + s[|s| - 4..];
  }

  /** Two differences print the same label exactly when they fall in the
      same unit with the same count. */
  lemma FormatTimeAgoDecodes(d1: int, d2: int)
    ensures FormatTimeAgo(d1) == FormatTimeAgo(d2) <==> Bucket(d1) == Bucket(d2)
  {
    if FormatTimeAgo(d1) == FormatTimeAgo(d2) {
      assert ParseLabel(FormatTimeAgo(d1)) == ParseLabel(FormatTimeAgo(d2));
    }
  }

  /** Counts never decrease as the difference grows within one unit. */
  lemma BucketMonotoneWithinUnit(d1: int, d2: int)
    requires d1 <= d2
    requires Bucket(d1).DaysAgo? == Bucket(d2).DaysAgo?
    requires Bucket(d1).HoursAgo? == Bucket(d2).HoursAgo?
    ensures Count(Bucket(d1)) <= Count(Bucket(d2))
  {
  }
}
