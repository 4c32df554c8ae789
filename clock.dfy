/** The injected "now": everything the client reads from `new Date()`. */
module Clock {

  /** A calendar month as `getFullYear()` and `getMonth()` report it (month 0..11). */
  datatype YearMonth = YearMonth(year: int, month: int)

  type Hour = h: int | 0 <= h < 24

  /** One reading of the browser clock. `iso` is what `toISOString()` returns
      (UTC); `local` and `localHour` are the local-time calendar fields and
      `localDate` is `format(now, 'yyyy-MM-dd')` in local time. The two time
      zones are separate inputs: nothing here forces them to agree. */
  datatype Instant = Instant(
    epochMs: int,
    iso: string,
    local: YearMonth,
    localHour: Hour,
    localDate: string)

  /** `s.substring(start, end)` for `0 <= start <= end`, clamped to the length. */
  function Substring(s: string, start: nat, end: nat): (r: string)
    requires start <= end
    ensures |r| <= end - start
    ensures start < |s| ==> r <= s[start..]
    ensures start < |s| && end <= |s| ==> |r| == end - start
  {
    if start >= |s| then "" else if end >= |s| then s[start..] else s[start..end]
  }
}
