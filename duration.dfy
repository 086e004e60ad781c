/** `formatDuration`: how long a container has been up. Both front ends
    (src/utils/utils.ts and js/utils.js) floor the elapsed milliseconds to
    seconds, minutes, hours and days in turn and pick the first unit that is
    positive. The clock reading is outside the model: the elapsed milliseconds
    (`now - startDate`, an integer, possibly negative) are the parameter. */
module Duration {
  import opened Strings

  const MsPerMinute: int := 60_000
  const MsPerHour: int := 3_600_000
  const MsPerDay: int := 86_400_000

  /** The successive `Math.floor` steps; Dafny's `/` by a positive divisor
      rounds toward negative infinity, as `Math.floor` of the quotient does. */
  datatype Elapsed = Elapsed(seconds: int, minutes: int, hours: int, days: int)

  function Breakdown(diffMs: int): Elapsed {
    var diffSec := diffMs / 1000;
    var diffMin := diffSec / 60;
    var diffHours := diffMin / 60;
    var diffDays := diffHours / 24;
    Elapsed(diffSec, diffMin, diffHours, diffDays)
  }

  /** The plural suffix of the leading unit. */
  function Plural(n: int): string {
    if n > 1 then "s" else ""
  }

  /** The text ends in the unit of its second count: " hours" for a day or
      more, " min" for anything shorter. */
  function FormatDuration(diffMs: int): (r: string)
    ensures diffMs >= MsPerDay ==> |r| >= 6 && r[|r| - 6..] == " hours"
    ensures diffMs < MsPerDay ==> |r| >= 4 && r[|r| - 4..] == " min"
  {
    var e := Breakdown(diffMs);
    BreakdownIsDirect(diffMs);
    if e.days > 0 then
      IntToString(e.days) + " day" + Plural(e.days) + " " + IntToString(e.hours % 24) + " hours"
    else if e.hours > 0 then
      IntToString(e.hours) + " hour" + Plural(e.hours) + " " + IntToString(e.minutes % 60) + " min"
    else
      IntToString(e.minutes) + " min"
  }

  /** The successive floors are the direct divisions by a minute, an hour and
      a day. */
  lemma BreakdownIsDirect(diffMs: int)
    ensures Breakdown(diffMs).minutes == diffMs / MsPerMinute
    ensures Breakdown(diffMs).hours == diffMs / MsPerHour
    ensures Breakdown(diffMs).days == diffMs / MsPerDay
  {
  }

  /** The three branches by threshold: a day or more shows days and the
      remaining hours, an hour or more shows hours and the remaining minutes,
      anything shorter (a negative difference included) shows minutes. */
  lemma FormatDurationCases(diffMs: int)
    ensures diffMs >= MsPerDay ==>
      FormatDuration(diffMs) ==
        NatToString(diffMs / MsPerDay) + " day" + Plural(diffMs / MsPerDay) + " "
        + NatToString(diffMs / MsPerHour % 24) + " hours"
    ensures MsPerHour <= diffMs < MsPerDay ==>
      FormatDuration(diffMs) ==
        NatToString(diffMs / MsPerHour) + " hour" + Plural(diffMs / MsPerHour) + " "
        + NatToString(diffMs / MsPerMinute % 60) + " min"
    ensures diffMs < MsPerHour ==> FormatDuration(diffMs) == IntToString(diffMs / MsPerMinute) + " min"
  {
    BreakdownIsDirect(diffMs);
  }

  /** The unit is singular exactly when its count is one. */
  lemma SingularDay(diffMs: int)
    requires MsPerDay <= diffMs < 2 * MsPerDay
    ensures FormatDuration(diffMs) == "1 day " + NatToString(diffMs / MsPerHour % 24) + " hours"
  {
    BreakdownIsDirect(diffMs);
    assert NatToString(1) == "1";
  }

  /** `MetricsService.formatDuration`: an empty start date is `N/A`. */
  function FormatDurationSince(startDateString: string, diffMs: int): (r: string)
    ensures startDateString == "" ==> r == "N/A"
    ensures startDateString != "" ==> r == FormatDuration(diffMs)
  {
    if startDateString == "" then "N/A" else FormatDuration(diffMs)
  }
}
