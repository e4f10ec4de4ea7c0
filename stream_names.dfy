/**
 * Log stream names: the fields a stream-name template sees (`LogStreamFields`),
 * the calendar readings of the clock, and `genStream` for the default template
 * "{{.LogStream}}-{{.YYYY}}-{{.MM}}-{{.DD}}-{{.HH}}".
 *
 * `ParseStreamName` has no counterpart in cwlog: it is the inverse of the default
 * template, used to prove that the name changes exactly when the calendar
 * hour (or the configured stream) changes.
 */
module StreamNames {
  import opened Wrappers

  /** A reading of the clock: the calendar fields the template uses, and the
    * instant in milliseconds since the Unix epoch (`UnixMilli`). */
  datatype Instant = Instant(year: int, month: int, day: int, hour: int, unixMilli: int)

  /** Calendar fields as a clock produces them, with a year that Go's "2006"
    * layout prints as exactly four digits. */
  predicate ValidCalendar(t: Instant) {
    && 0 <= t.year <= 9999
    && 1 <= t.month <= 12
    && 1 <= t.day <= 31
    && 0 <= t.hour <= 23
  }

  /** Same year, month, day and hour: what the default template can see. */
  predicate SameCalendarHour(t1: Instant, t2: Instant) {
    t1.year == t2.year && t1.month == t2.month && t1.day == t2.day && t1.hour == t2.hour
  }

  /** `time.Time{}`: January 1 of year 1, 00:00:00 UTC. */
  const ZeroTime := Instant(1, 1, 1, 0, -62135596800000)

  /** The values a template is executed against. */
  datatype StreamFields = StreamFields(
    logGroup: string, logStream: string, yyyy: string, mm: string, dd: string, hh: string)

  /**
   * The `LogStreamTemplate` option. Go keeps it as text; the model keeps
   * what matters of that text: empty, the default template's text, another
   * template that parses (as the function its execution computes), or text
   * that fails to parse.
   */
  datatype StreamTemplate =
    | NoTemplate
    | DefaultTemplate
    | CustomTemplate(execute: StreamFields -> string)
    | MalformedTemplate

  /** A template that `template.Parse` accepted. */
  predicate Parsed(t: StreamTemplate) {
    t.DefaultTemplate? || t.CustomTemplate?
  }

  function Pow10(k: nat): (r: nat)
    ensures r >= 1
  {
    if k == 0 then 1 else 10 * Pow10(k - 1)
  }

  predicate IsDigit(c: char) {
    '0' <= c <= '9'
  }

  predicate AllDigits(s: string) {
    forall i :: 0 <= i < |s| ==> IsDigit(s[i])
  }

  function DigitChar(d: nat): (c: char)
    requires d < 10
    ensures IsDigit(c)
  {
    ('0' as int + d) as char
  }

  /** The last `width` decimal digits of `n`, most significant first, padded
    * with zeros: Go's "2006" (width 4) and "01", "02", "15" (width 2). */
  function Digits(n: nat, width: nat): (r: string)
    ensures |r| == width
    ensures AllDigits(r)
  {
    if width == 0 then [] else Digits(n / 10, width - 1) + [DigitChar(n % 10)]
  }

  /** The number a string of decimal digits denotes. */
  function DigitsValue(s: string): (n: nat)
    requires AllDigits(s)
  {
    if s == [] then 0 else 10 * DigitsValue(s[..|s| - 1]) + (s[|s| - 1] as int - '0' as int)
  }

  /** Padding loses nothing when the number fits in the width. */
  lemma {:induction false} DigitsRoundTrip(n: nat, width: nat)
    requires n < Pow10(width)
    ensures DigitsValue(Digits(n, width)) == n
  {
    if width > 0 {
      var q := n / 10;
      assert q < Pow10(width - 1);
      DigitsRoundTrip(q, width - 1);
      var s := Digits(n, width);
      assert s[..|s| - 1] == Digits(q, width - 1);
      assert s[|s| - 1] as int - '0' as int == n % 10;
    }
  }

  /** The fields `genStream` builds from the group, the stream and the clock. */
  function Fields(group: string, stream: string, now: Instant): (f: StreamFields)
    requires ValidCalendar(now)
  {
    StreamFields(group, stream, Digits(now.year, 4), Digits(now.month, 2),
                 Digits(now.day, 2), Digits(now.hour, 2))
  }

  /** Execution of a parsed template against its fields. */
  function Execute(templ: StreamTemplate, f: StreamFields): (name: string)
    requires Parsed(templ)
  {
    match templ
    case DefaultTemplate => f.logStream + "-" + f.yyyy + "-" + f.mm + "-" + f.dd + "-" + f.hh
    case CustomTemplate(execute) => execute(f)
  }

  /** `genStream`: the log stream name for this group, stream and time. */
  function GenStream(templ: StreamTemplate, group: string, stream: string, now: Instant): (name: string)
    requires Parsed(templ) && ValidCalendar(now)
    ensures templ.DefaultTemplate? ==> |name| == |stream| + SuffixLength && name[..|stream|] == stream
  {
    Execute(templ, Fields(group, stream, now))
  }

  /** Length of the suffix "-YYYY-MM-DD-HH" the default template appends. */
  const SuffixLength := 14

  /** Splits a default-template name back into the stream and the calendar
    * hour; None when its last 14 characters are not "-dddd-dd-dd-dd". */
  function ParseStreamName(name: string): (parsed: Option<(string, int, int, int, int)>) {
    if |name| < SuffixLength then None
    else
      var k := |name| - SuffixLength;
      var sfx := name[k..];
      if sfx[0] == '-' && sfx[5] == '-' && sfx[8] == '-' && sfx[11] == '-'
         && AllDigits(sfx[1..5]) && AllDigits(sfx[6..8]) && AllDigits(sfx[9..11]) && AllDigits(sfx[12..14])
      then Some((name[..k], DigitsValue(sfx[1..5]), DigitsValue(sfx[6..8]),
                 DigitsValue(sfx[9..11]), DigitsValue(sfx[12..14])))
      else None
  }

  /** A stream followed by "-", four digits and three times "-" and two
    * digits parses back into the stream and the numbers (a direct proof by
    * slicing; automatic induction over the strings is switched off). */
  lemma {:induction false} ParseJoined(stream: string, y: string, m: string, d: string, h: string)
    requires |y| == 4 && |m| == 2 && |d| == 2 && |h| == 2
    requires AllDigits(y) && AllDigits(m) && AllDigits(d) && AllDigits(h)
    ensures ParseStreamName(stream + "-" + y + "-" + m + "-" + d + "-" + h)
            == Some((stream, DigitsValue(y), DigitsValue(m), DigitsValue(d), DigitsValue(h)))
  {
    var sfx := "-" + y + "-" + m + "-" + d + "-" + h;
    var name := stream + "-" + y + "-" + m + "-" + d + "-" + h;
    assert name == stream + sfx;
    var k := |stream|;
    assert |sfx| == SuffixLength && |name| == k + SuffixLength;
    assert name[..k] == stream && name[k..] == sfx;
    assert sfx[1..5] == y && sfx[6..8] == m && sfx[9..11] == d && sfx[12..14] == h;
  }

  /** The default template's name determines the stream and the calendar hour. */
  lemma StreamNameRoundTrip(group: string, stream: string, now: Instant)
    requires ValidCalendar(now)
    ensures ParseStreamName(GenStream(DefaultTemplate, group, stream, now))
            == Some((stream, now.year, now.month, now.day, now.hour))
  {
    var f := Fields(group, stream, now);
    ParseJoined(stream, f.yyyy, f.mm, f.dd, f.hh);
    assert Pow10(4) == 10000 && Pow10(2) == 100;
    DigitsRoundTrip(now.year, 4);
    DigitsRoundTrip(now.month, 2);
    DigitsRoundTrip(now.day, 2);
    DigitsRoundTrip(now.hour, 2);
  }

  /** With the default template two names are equal exactly when they were made
    * for the same stream in the same calendar hour (the group plays no part). */
  lemma StreamNameChangesWithHour(group1: string, group2: string, stream1: string, stream2: string,
                                  t1: Instant, t2: Instant)
    requires ValidCalendar(t1) && ValidCalendar(t2)
    ensures GenStream(DefaultTemplate, group1, stream1, t1) == GenStream(DefaultTemplate, group2, stream2, t2)
            <==> stream1 == stream2 && SameCalendarHour(t1, t2)
  {
    StreamNameRoundTrip(group1, stream1, t1);
    StreamNameRoundTrip(group2, stream2, t2);
  }

  /** The fields of the zero time, as Go prints them. */
  lemma ZeroTimeDigits()
    ensures Digits(ZeroTime.year, 4) == "0001"
    ensures Digits(ZeroTime.month, 2) == "01" && Digits(ZeroTime.day, 2) == "01"
    ensures Digits(ZeroTime.hour, 2) == "00"
  {
    assert Digits(0, 1) == "0";
    assert Digits(0, 2) == "00";
    assert Digits(0, 3) == "000";
  }

  /** The name cwlog's TestStreamName expects at the zero time. */
  lemma StreamNameAtZeroTime()
    ensures GenStream(DefaultTemplate, "", "stream1", ZeroTime) == "stream1-0001-01-01-00"
  {
    ZeroTimeDigits();
    assert GenStream(DefaultTemplate, "", "stream1", ZeroTime)
        == "stream1" + "-" + "0001" + "-" + "01" + "-" + "01" + "-" + "00";
  }
}
