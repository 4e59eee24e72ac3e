/**
 * The date helpers (`useDateUtils`). Times are integer milliseconds since the
 * epoch; the current time is a parameter. A missing date stands for every falsy
 * argument (`''`, `null`, `undefined`). Locale rendering is a parameter too.
 */
module DateUtils {
  import opened Base

  const NotAvailable := "N/A"
  const JustNow := "Just now"

  const Minute := 60
  const Hour := 3600
  const Day := 86400
  const Month := 2592000
  const Year := 31536000
  const DayMs := 86400000

  /** `formatDate` and `formatDateTime`: 'N/A' for a falsy date, else the locale rendering. */
  function FormatWith(date: Option<int>, render: int -> string): (r: string)
    ensures date.None? ==> r == NotAvailable
    ensures date.Some? ==> r == render(date.value)
  {
    if date.None? then NotAvailable else render(date.value)
  }

  /** `Math.floor((now - date) / 1000)`: whole seconds elapsed, rounded down. */
  function ElapsedSeconds(now: int, date: int): (s: int)
    ensures s * 1000 <= now - date < (s + 1) * 1000
  {
    (now - date) / 1000
  }

  /** `${n} <unit> ago` */
  function Ago(n: int, unit: string): string
  {
    IntToString(n) + " " + unit + " ago"
  }

  /** The bucket for a number of elapsed seconds. */
  function RelativeText(s: int): string
  {
    if s < Minute then JustNow
    else if s < Hour then Ago(s / Minute, "minutes")
    else if s < Day then Ago(s / Hour, "hours")
    else if s < Month then Ago(s / Day, "days")
    else if s < Year then Ago(s / Month, "months")
    else Ago(s / Year, "years")
  }

  /** `formatRelativeTime(date)` */
  function FormatRelativeTime(now: int, date: Option<int>): (r: string)
    ensures date.None? ==> r == NotAvailable
    ensures date.Some? ==> r == RelativeText(ElapsedSeconds(now, date.value))
  {
    if date.None? then NotAvailable else RelativeText(ElapsedSeconds(now, date.value))
  }

  /** A date in the future, or less than a minute ago, is 'Just now'. */
  lemma FutureIsJustNow(now: int, date: int)
    requires date > now - 60000
    ensures FormatRelativeTime(now, Some(date)) == JustNow
  {
  }

  /**
   * Each bucket covers its range of elapsed seconds, and the count it shows is
   * the whole number of its units, at least one.
   */
  lemma RelativeBuckets(s: int)
    ensures s < Minute <==> RelativeText(s) == JustNow
    ensures Minute <= s < Hour ==> RelativeText(s) == Ago(s / Minute, "minutes") && 1 <= s / Minute < 60
    ensures Hour <= s < Day ==> RelativeText(s) == Ago(s / Hour, "hours") && 1 <= s / Hour < 24
    ensures Day <= s < Month ==> RelativeText(s) == Ago(s / Day, "days") && 1 <= s / Day < 30
    ensures Month <= s < Year ==> RelativeText(s) == Ago(s / Month, "months") && 1 <= s / Month <= 12
    ensures Year <= s ==> RelativeText(s) == Ago(s / Year, "years") && s / Year >= 1
  {
    if s >= Minute {
      var unit := if s < Hour then "minutes" else if s < Day then "hours" else if s < Month then "days"
                  else if s < Year then "months" else "years";
      var n := if s < Hour then s / Minute else if s < Day then s / Hour else if s < Month then s / Day
               else if s < Year then s / Month else s / Year;
      assert RelativeText(s) == Ago(n, unit);
      AgoIsNotJustNow(n, unit);
    }
  }

  /** A count never reads as 'Just now': it starts with a digit or a minus sign. */
  lemma AgoIsNotJustNow(n: int, unit: string)
    ensures Ago(n, unit) != JustNow
  {
    var t := Ago(n, unit);
    assert t[0] == IntToString(n)[0];
    assert JustNow[0] == 'J';
  }

  /** Thirty-day months make 360 to 364 days read as '12 months ago'. */
  lemma TwelveMonths()
    ensures RelativeText(362 * Day) == Ago(12, "months")
  {
    var s := 362 * Day;
    assert s == 31276800;
    assert Month <= s < Year;
    assert 12 * Month <= s < 13 * Month;
    assert s / Month == 12;
  }

  /** `isToday(date)`: false for a falsy date, else the local calendar days agree. */
  function IsToday(now: int, date: Option<int>, localDay: int -> int): (r: bool)
    ensures date.None? ==> !r
    ensures date.Some? ==> (r <==> localDay(now) == localDay(date.value))
  {
    date.Some? && localDay(now) == localDay(date.value)
  }

  /** `isThisWeek(date)`: within seven days either way, counting a started day as a whole one. */
  function IsThisWeek(now: int, date: Option<int>): (r: bool)
    ensures date.None? ==> !r
  {
    date.Some? && CeilDiv(Abs(now - date.value), DayMs) <= 7
  }

  /** The week test is exactly "at most seven days apart", in either direction. */
  lemma IsThisWeekWindow(now: int, date: int)
    ensures IsThisWeek(now, Some(date)) <==> -7 * DayMs <= now - date <= 7 * DayMs
    ensures IsThisWeek(now, Some(date)) == IsThisWeek(date, Some(now))
  {
    var d := CeilDiv(Abs(now - date), DayMs);
    if d <= 7 {
      assert Abs(now - date) <= d * DayMs <= 7 * DayMs;
    } else {
      assert (d - 1) * DayMs >= 7 * DayMs;
    }
    assert Abs(now - date) == Abs(date - now);
  }
}
