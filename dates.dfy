/**
 * Calendar dates and their text forms: the `%Y-%m-%d` format and parse pair of
 * server/util/dates.py (the `full-date` production of section 5.6 of RFC 3339), and
 * `datetime.isoformat("T")`, which the tweet adapters send with a `Z` appended.
 */
module Dates {
  import opened Wrappers
  import opened Text

  datatype Date = Date(year: int, month: int, day: int)

  datatype DateTime = DateTime(date: Date, hour: int, minute: int, second: int, microsecond: int)

  predicate IsLeapYear(y: int) {
    y % 4 == 0 && (y % 100 != 0 || y % 400 == 0)
  }

  function DaysInMonth(y: int, m: int): int
    requires 1 <= m <= 12
  {
    if m == 2 then (if IsLeapYear(y) then 29 else 28)
    else if m == 4 || m == 6 || m == 9 || m == 11 then 30
    else 31
  }

  /** The dates Python's `datetime.date` can hold: years 1 to 9999. */
  predicate ValidDate(d: Date) {
    1 <= d.year <= 9999 && 1 <= d.month <= 12 && 1 <= d.day <= DaysInMonth(d.year, d.month)
  }

  predicate ValidDateTime(t: DateTime) {
    ValidDate(t.date) && 0 <= t.hour < 24 && 0 <= t.minute < 60 && 0 <= t.second < 60
    && 0 <= t.microsecond < 1000000
  }

  /** A naive `datetime.datetime` value. */
  type PyDateTime = t: DateTime | ValidDateTime(t) witness DateTime(Date(1970, 1, 1), 0, 0, 0, 0)

  /**
   * What `datetime.fromtimestamp` gives for an epoch second on the host: local time, so it
   * depends on the host's time zone, which is not part of this model.
   */
  type LocalClock = f: int -> DateTime | forall s :: ValidDateTime(f(s))
    witness (s: int) => DateTime(Date(1970, 1, 1), 0, 0, 0, 0)

  /**
   * A datetime argument as the adapters use it: its wall-clock fields, and `epoch`, which
   * is `int(d.timestamp())` (the float timestamp truncated toward zero).
   */
  datatype Moment = Moment(wall: PyDateTime, epoch: int)

  function Midnight(d: Date): DateTime {
    DateTime(d, 0, 0, 0, 0)
  }

  // ---- `strftime('%Y-%m-%d')` -----------------------------------------------------------

  /** `d.strftime('%Y-%m-%d')`: four-digit year, two-digit month and day, dash-separated. */
  function FormatSolrDate(d: Date): (s: string)
    requires ValidDate(d)
    ensures |s| == 10 && s[4] == '-' && s[7] == '-'
    ensures AllDigits(s[..4]) && AllDigits(s[5..7]) && AllDigits(s[8..])
  {
    var s := Pad4(d.year) + "-" + Pad2(d.month) + "-" + Pad2(d.day);
    assert s[..4] == Pad4(d.year) && s[5..7] == Pad2(d.month) && s[8..] == Pad2(d.day);
    s
  }

  /** `unix_to_solr_date`: the local calendar day of an epoch second, formatted. */
  function UnixToSolrDate(timestamp: int, clock: LocalClock): (s: string)
    ensures |s| == 10 && s[4] == '-' && s[7] == '-'
    ensures AllDigits(s[..4]) && AllDigits(s[5..7]) && AllDigits(s[8..])
  {
    FormatSolrDate(clock(timestamp).date)
  }

  // ---- `strptime(s, '%Y-%m-%d')` --------------------------------------------------------
  // Python compiles the format to the pattern
  //   (?P<Y>\d\d\d\d)-(?P<m>1[0-2]|0[1-9]|[1-9])-(?P<d>3[01]|[12]\d|0[1-9]|[1-9]| [1-9])
  // takes the first alternative that matches, fails when text is left over after the day,
  // and then fails again if the fields are not a real date.

  predicate InRange(ch: char, lo: char, hi: char) {
    lo <= ch <= hi
  }

  /** Width of the month group at `p`: 2 or 1, or 0 when no alternative matches. */
  function MonthWidth(s: string, p: nat): (w: nat)
    ensures w <= 2 && (w > 0 ==> p + w <= |s|)
    ensures w > 0 ==> AllDigits(s[p..p + w])
  {
    if p + 1 < |s| && s[p] == '1' && InRange(s[p + 1], '0', '2') then 2
    else if p + 1 < |s| && s[p] == '0' && InRange(s[p + 1], '1', '9') then 2
    else if p < |s| && InRange(s[p], '1', '9') then 1
    else 0
  }

  /** Width of the day group at `p`, including the space of the ` [1-9]` alternative. */
  function DayWidth(s: string, p: nat): (w: nat)
    ensures w <= 2 && (w > 0 ==> p + w <= |s|)
  {
    if p + 1 < |s| && s[p] == '3' && InRange(s[p + 1], '0', '1') then 2
    else if p + 1 < |s| && InRange(s[p], '1', '2') && IsDigit(s[p + 1]) then 2
    else if p + 1 < |s| && s[p] == '0' && InRange(s[p + 1], '1', '9') then 2
    else if p < |s| && InRange(s[p], '1', '9') then 1
    else if p + 1 < |s| && s[p] == ' ' && InRange(s[p + 1], '1', '9') then 2
    else 0
  }

  /** The value of the day group, which `int()` reads past a leading space. */
  function DayValue(g: string): nat
    requires 1 <= |g| <= 2
    requires AllDigits(g) || (|g| == 2 && g[0] == ' ' && IsDigit(g[1]))
  {
    if g[0] == ' ' then DigitValue(g[1]) else DecimalToNat(g)
  }

  /** `solr_date_to_date`: `None` stands for the `ValueError` that `strptime` raises. */
  function SolrDateToDate(s: string): (r: Option<DateTime>)
    ensures r.Some? ==> ValidDateTime(r.value) && r.value == Midnight(r.value.date)
  {
    if |s| < 5 || !AllDigits(s[..4]) || s[4] != '-' then None
    else
      var mw := MonthWidth(s, 5);
      if mw == 0 || 5 + mw >= |s| || s[5 + mw] != '-' then None
      else
        var p := 6 + mw;
        var dw := DayWidth(s, p);
        if dw == 0 || p + dw != |s| then None
        else
          var d := Date(DecimalToNat(s[..4]), DecimalToNat(s[5..5 + mw]), DayValue(s[p..]));
          if ValidDate(d) then Some(Midnight(d)) else None
  }

  /** Parsing a formatted date gives that date at midnight: the pair is a round trip. */
  lemma {:induction false} ParseFormat(d: Date)
    requires ValidDate(d)
    ensures SolrDateToDate(FormatSolrDate(d)) == Some(Midnight(d))
  {
    var s := FormatSolrDate(d);
    assert s[..4] == Pad4(d.year);
    assert s[5..7] == Pad2(d.month);
    assert s[8..] == Pad2(d.day);
    Pad4Value(d.year);
    Pad2Value(d.month);
    Pad2Value(d.day);
    assert MonthWidth(s, 5) == 2;
    assert DayWidth(s, 8) == 2;
  }

  /** `unix_to_solr_date` then `solr_date_to_date` gives midnight of the same local day. */
  lemma UnixDateRoundTrip(timestamp: int, clock: LocalClock)
    ensures SolrDateToDate(UnixToSolrDate(timestamp, clock)) == Some(Midnight(clock(timestamp).date))
  {
    ParseFormat(clock(timestamp).date);
  }

  /** The format is injective on valid dates: the text determines the date. */
  lemma FormatInjective(a: Date, b: Date)
    requires ValidDate(a) && ValidDate(b)
    requires FormatSolrDate(a) == FormatSolrDate(b)
    ensures a == b
  {
    ParseFormat(a);
    ParseFormat(b);
  }

  // ---- `datetime.isoformat("T")` --------------------------------------------------------

  function Pad6(n: nat): (s: string)
    requires n < 1000000
    ensures |s| == 6 && AllDigits(s)
  {
    Pad2(n / 10000) + Pad2(n / 100 % 100) + Pad2(n % 100)
  }

  /** `t.isoformat("T")` for a naive datetime: microseconds appear only when non-zero. */
  function IsoFormat(t: PyDateTime): (s: string)
    ensures |s| == 19 || |s| == 26
  {
    FormatSolrDate(t.date) + "T" + Pad2(t.hour) + ":" + Pad2(t.minute) + ":" + Pad2(t.second)
      + (if t.microsecond == 0 then "" else "." + Pad6(t.microsecond))
  }

  /** The `start_time`/`end_time` text of the tweet adapters: `isoformat("T") + "Z"`. */
  function IsoZ(t: PyDateTime): (s: string)
    ensures |s| == 20 || |s| == 27
    ensures s[|s| - 1] == 'Z'
  {
    IsoFormat(t) + "Z"
  }

  /**
   * The text is an RFC 3339 date-time with a literal `Z`: its first ten characters are the
   * full-date (which parses back to the same day), then `T`, and the two-digit hour, minute
   * and second fields read back as the wall-clock time.
   */
  lemma {:induction false} IsoZFields(t: PyDateTime)
    ensures var s := IsoZ(t);
      && s[..10] == FormatSolrDate(t.date) && s[10] == 'T' && s[13] == ':' && s[16] == ':'
      && SolrDateToDate(s[..10]) == Some(Midnight(t.date))
      && AllDigits(s[11..13]) && DecimalToNat(s[11..13]) == t.hour
      && AllDigits(s[14..16]) && DecimalToNat(s[14..16]) == t.minute
      && AllDigits(s[17..19]) && DecimalToNat(s[17..19]) == t.second
      && (s[19] == 'Z' <==> t.microsecond == 0)
  {
    var s := IsoZ(t);
    var day := FormatSolrDate(t.date);
    assert s[..10] == day;
    assert s[11..13] == Pad2(t.hour);
    assert s[14..16] == Pad2(t.minute);
    assert s[17..19] == Pad2(t.second);
    Pad2Value(t.hour);
    Pad2Value(t.minute);
    Pad2Value(t.second);
    ParseFormat(t.date);
  }
}
