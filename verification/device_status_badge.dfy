/** The device badge of the web client (`web/components/DeviceStatusBadge.tsx`):
    the relative age of the last check-in and the online/offline decision. */
module DeviceStatusBadge {
  import opened Common

  const MsPerMinute := 60000
  const MsPerHour := 3600000
  const MsPerDay := 86400000

  /** The four shapes of the relative time. */
  datatype Relative = JustNow | MinutesAgo(n: int) | HoursAgo(n: int) | DaysAgo(n: int)

  /** The bucket of a difference of `diffMs` milliseconds; the divisions are
      `Math.floor` of positive divisors, which Dafny's `/` is. */
  function BucketOf(diffMs: int): (b: Relative)
    ensures b.JustNow? <==> diffMs < MsPerMinute
    ensures b.MinutesAgo? <==> MsPerMinute <= diffMs < MsPerHour
    ensures b.HoursAgo? <==> MsPerHour <= diffMs < MsPerDay
    ensures b.DaysAgo? <==> MsPerDay <= diffMs
    ensures b.MinutesAgo? ==> 1 <= b.n < 60 && b.n * MsPerMinute <= diffMs < (b.n + 1) * MsPerMinute
    ensures b.HoursAgo? ==> 1 <= b.n < 24 && b.n * MsPerHour <= diffMs < (b.n + 1) * MsPerHour
    ensures b.DaysAgo? ==> 1 <= b.n && b.n * MsPerDay <= diffMs < (b.n + 1) * MsPerDay
  {
    var minutes := diffMs / MsPerMinute;
    var hours := diffMs / MsPerHour;
    var days := diffMs / MsPerDay;
    if minutes < 1 then JustNow
    else if minutes < 60 then MinutesAgo(minutes)
    else if hours < 24 then HoursAgo(hours)
    else DaysAgo(days)
  }

  function Render(b: Relative): (r: string)
    ensures |r| >= 6 && r[|r| - 1] == (if b.JustNow? then 'w' else 'o')
  {
    match b
    case JustNow => "Just now"
    case MinutesAgo(m) => IntToString(m) + "m ago"
    case HoursAgo(h) => IntToString(h) + "h ago"
    case DaysAgo(d) => IntToString(d) + "d ago"
  }

  /** The unit letter of a bucket other than `JustNow`. */
  function Unit(b: Relative): char
    requires !b.JustNow?
  {
    match b
    case MinutesAgo(_) => 'm'
    case HoursAgo(_) => 'h'
    case DaysAgo(_) => 'd'
  }

  /** The text of a bucket other than `JustNow`: its count, its unit letter, " ago". */
  lemma RenderShape(b: Relative)
    requires !b.JustNow?
    ensures Render(b) == IntToString(b.n) + [Unit(b)] + " ago"
  {
  }

  /** Two texts that end alike in " ago" agree on everything before it. */
  lemma SameBeforeSuffix(x: string, c: char, y: string, d: char)
    requires x + [c] + " ago" == y + [d] + " ago"
    ensures x == y && c == d
  {
    var s := x + [c] + " ago";
    assert |x| == |y|;
    assert x == s[..|x|] == y;
    assert c == s[|x|] == d;
  }

  /** Different buckets never render alike: the text determines the bucket. */
  lemma RenderInjective(a: Relative, b: Relative)
    requires Render(a) == Render(b)
    ensures a == b
  {
    if !a.JustNow? && !b.JustNow? {
      RenderShape(a);
      RenderShape(b);
      SameBeforeSuffix(IntToString(a.n), Unit(a), IntToString(b.n), Unit(b));
      IntToStringRoundTrip(a.n);
      IntToStringRoundTrip(b.n);
    }
  }

  /** `formatRelative`; `diffMs` is `Date.now()` minus the parsed check-in time,
      `None` when the time does not parse (`NaN`). */
  function FormatRelative(lastCheckIn: Option<string>, diffMs: Option<int>): string {
    if !Truthy(lastCheckIn) then "No recent check-in"
    else if diffMs.None? then lastCheckIn.value
    else Render(BucketOf(diffMs.value))
  }

  /** The outcome of each range of the difference, a future time included. */
  lemma FormatRelativeCases(lastCheckIn: Option<string>, diffMs: Option<int>)
    ensures !Truthy(lastCheckIn) ==> FormatRelative(lastCheckIn, diffMs) == "No recent check-in"
    ensures Truthy(lastCheckIn) && diffMs.None? ==> FormatRelative(lastCheckIn, diffMs) == lastCheckIn.value
    ensures Truthy(lastCheckIn) && diffMs.Some? && diffMs.value < MsPerMinute ==>
      FormatRelative(lastCheckIn, diffMs) == "Just now"
    ensures Truthy(lastCheckIn) && diffMs.Some? && MsPerMinute <= diffMs.value < MsPerHour ==>
      FormatRelative(lastCheckIn, diffMs) == IntToString(diffMs.value / MsPerMinute) + "m ago"
    ensures Truthy(lastCheckIn) && diffMs.Some? && MsPerHour <= diffMs.value < MsPerDay ==>
      FormatRelative(lastCheckIn, diffMs) == IntToString(diffMs.value / MsPerHour) + "h ago"
    ensures Truthy(lastCheckIn) && diffMs.Some? && MsPerDay <= diffMs.value ==>
      FormatRelative(lastCheckIn, diffMs) == IntToString(diffMs.value / MsPerDay) + "d ago"
  {
  }

  /** `(status ?? '').toLowerCase() === 'online'`. */
  predicate IsOnline(status: Option<string>) {
    LowerAscii(status.GetOr("")) == "online"
  }

  lemma LowerAsciiIdempotent(s: string)
    ensures LowerAscii(LowerAscii(s)) == LowerAscii(s)
  {
  }

  /** The decision ignores case, and a missing status is offline. */
  lemma OnlineIgnoresCase(s: string)
    ensures IsOnline(Some(s)) <==> IsOnline(Some(LowerAscii(s)))
    ensures IsOnline(Some(s)) ==> |s| == 6
  {
    LowerAsciiIdempotent(s);
  }

  /** A missing status is offline; "online" is online in any case. */
  lemma OnlineExamples()
    ensures !IsOnline(None) && !IsOnline(Some("offline"))
    ensures IsOnline(Some("online")) && IsOnline(Some("ONLINE"))
  {
    assert LowerAscii("ONLINE") == "online";
  }
}
