/** JavaScript `Date` values and the one textual form the core exchanges them in:
    the simplified ISO 8601 extended format `YYYY-MM-DDTHH:mm:ss.sssZ` of
    ECMAScript's Date Time String Format (years outside 0..9999 written as a sign
    and six digits), produced by `Date.prototype.toISOString` and read back by
    `new Date(text)`, which also accepts the date-only form `YYYY-MM-DD` as UTC
    midnight.

    A point in time is kept as its UTC calendar fields rather than as milliseconds
    since the epoch; the order of time is then the lexicographic order of the
    fields. */
module Dates {
  import opened Wrappers

  datatype DateTime = DateTime(year: int, month: int, day: int,
                               hour: int, minute: int, second: int, millisecond: int)
  {
    /** The fields name a real UTC instant whose year fits the ISO text forms. */
    predicate Valid() {
      -999999 <= year <= 999999 &&
      1 <= month <= 12 && 1 <= day <= DaysInMonth(year, month) &&
      0 <= hour < 24 && 0 <= minute < 60 && 0 <= second < 60 && 0 <= millisecond < 1000
    }
  }

  type Instant = t: DateTime | t.Valid() witness DateTime(1970, 1, 1, 0, 0, 0, 0)

  /** A JavaScript `Date` object: a time value, or the "Invalid Date" that
      `new Date(text)` yields for text it cannot read. */
  datatype Date = At(instant: Instant) | Invalid

  predicate IsLeapYear(y: int) {
    y % 4 == 0 && (y % 100 != 0 || y % 400 == 0)
  }

  function DaysInMonth(y: int, m: int): int {
    if m == 2 then (if IsLeapYear(y) then 29 else 28)
    else if m == 4 || m == 6 || m == 9 || m == 11 then 30
    else 31
  }

  /** `a` is strictly earlier than `b`. */
  predicate Before(a: Instant, b: Instant) {
    a.year < b.year || (a.year == b.year &&
    (a.month < b.month || (a.month == b.month &&
    (a.day < b.day || (a.day == b.day &&
    (a.hour < b.hour || (a.hour == b.hour &&
    (a.minute < b.minute || (a.minute == b.minute &&
    (a.second < b.second || (a.second == b.second &&
    a.millisecond < b.millisecond)))))))))))
  }

  /** Time is totally ordered: two instants neither of which is before the other are equal. */
  lemma BeforeTotal(a: Instant, b: Instant)
    ensures Before(a, b) || Before(b, a) || a == b
  {
  }

  lemma BeforeTransitive(a: Instant, b: Instant, c: Instant)
    requires Before(a, b) && Before(b, c)
    ensures Before(a, c)
  {
  }

  /** Midnight UTC at the start of the same day. */
  function StartOfDay(t: Instant): (r: Instant)
    ensures r.year == t.year && r.month == t.month && r.day == t.day
    ensures !Before(t, r)
  {
    t.(hour := 0, minute := 0, second := 0, millisecond := 0)
  }

  // ---- decimal digits -------------------------------------------------------

  function Pow10(k: nat): (r: nat)
    ensures r >= 1
  {
    if k == 0 then 1 else 10 * Pow10(k - 1)
  }

  predicate IsDigit(c: char) {
    '0' <= c <= '9'
  }

  predicate AllDigits(s: string) {
    forall i :: 0 <= i < |s| ==> IsDigit(s[i])
  }

  function DigitChar(d: int): (c: char)
    requires 0 <= d < 10
    ensures IsDigit(c)
  {
    ('0' as int + d) as char
  }

  /** `n` written in exactly `width` decimal digits, zero-padded on the left. */
  function Pad(n: nat, width: nat): (r: string)
    ensures |r| == width && AllDigits(r)
  {
    if width == 0 then [] else Pad(n / 10, width - 1) + [DigitChar(n % 10)]
  }

  /** The number a string of decimal digits denotes. */
  function DigitsValue(s: string): nat
    requires AllDigits(s)
  {
    if s == [] then 0
    else DigitsValue(s[..|s| - 1]) * 10 + (s[|s| - 1] as int - '0' as int)
  }

  lemma {:induction false} PadRoundTrip(n: nat, width: nat)
    requires n < Pow10(width)
    ensures DigitsValue(Pad(n, width)) == n
  {
    if width > 0 {
      var p := Pad(n / 10, width - 1);
      assert n / 10 < Pow10(width - 1);
      PadRoundTrip(n / 10, width - 1);
      assert (p + [DigitChar(n % 10)])[..|p|] == p;
    }
  }

  // ---- Date.prototype.toISOString ------------------------------------------

  /** The year as `toISOString` writes it: four digits, or a sign and six digits. */
  function YearText(y: int): string
    requires -999999 <= y <= 999999
  {
    if 0 <= y <= 9999 then Pad(y, 4)
    else if y > 9999 then "+" + Pad(y, 6)
    else "-" + Pad(-y, 6)
  }

  /** A separator character followed by a zero-padded number. */
  function Field(sep: char, n: nat, width: nat): (r: string)
    ensures |r| == width + 1 && r[0] == sep
  {
    [sep] + Pad(n, width)
  }

  /** `YYYY-MM-DD`: the text before the `T` of the ISO form. */
  function DateText(t: Instant): string {
    YearText(t.year) + (Field('-', t.month, 2) + Field('-', t.day, 2))
  }

  /** `THH:mm:ss.sssZ`: the text from the `T` on. */
  function TimeText(t: Instant): (r: string)
    ensures |r| > 0 && r[0] == 'T'
  {
    Field('T', t.hour, 2) + (Field(':', t.minute, 2) + (Field(':', t.second, 2) +
      (Field('.', t.millisecond, 3) + "Z")))
  }

  /** `d.toISOString()`; an Invalid Date throws a RangeError. */
  function ToIsoString(d: Date): Result<string> {
    match d
    case At(t) => Ok(DateText(t) + TimeText(t))
    case Invalid => Err("Invalid time value")
  }

  // ---- new Date(text) --------------------------------------------------------

  /** Reads the year at the front of `s` and returns it with the rest of the text. */
  function ParseYear(s: string): Option<(int, string)> {
    if |s| >= 4 && AllDigits(s[..4]) then Some((DigitsValue(s[..4]), s[4..]))
    else if |s| >= 7 && (s[0] == '+' || s[0] == '-') && AllDigits(s[1..7]) then
      var v := DigitsValue(s[1..7]);
      if s[0] == '-' && v == 0 then None   // "-000000" is not a year
      else
        var y: int := if s[0] == '-' then -(v as int) else v as int;
        Some((y, s[7..]))
    else None
  }

  /** Reads `sep` and `width` digits at the front of `s`. */
  function ParseField(s: string, sep: char, width: nat): Option<(nat, string)> {
    if |s| >= width + 1 && s[0] == sep && AllDigits(s[1..width + 1]) then
      Some((DigitsValue(s[1..width + 1]), s[width + 1..]))
    else None
  }

  /** The `Date` for calendar fields read from text: Invalid when they name no instant. */
  function MakeDate(y: int, mo: int, d: int, h: int, mi: int, s: int, ms: int): (r: Date)
    ensures r.At? <==> DateTime(y, mo, d, h, mi, s, ms).Valid()
    ensures r.At? ==> r.instant == DateTime(y, mo, d, h, mi, s, ms)
  {
    var t := DateTime(y, mo, d, h, mi, s, ms);
    if t.Valid() then At(t) else Invalid
  }

  /** Reads `YYYY-MM-DD` at the front of `s`. */
  function ParseDateFields(s: string): Option<(int, nat, nat, string)> {
    match ParseYear(s)
    case None => None
    case Some((y, r0)) =>
      match ParseField(r0, '-', 2)
      case None => None
      case Some((mo, r1)) =>
        match ParseField(r1, '-', 2)
        case None => None
        case Some((d, r2)) => Some((y, mo, d, r2))
  }

  /** Reads `THH:mm:ss.sssZ`, which must be all of `s`. */
  function ParseTimeFields(s: string): Option<(nat, nat, nat, nat)> {
    match ParseField(s, 'T', 2)
    case None => None
    case Some((h, r3)) =>
      match ParseField(r3, ':', 2)
      case None => None
      case Some((mi, r4)) =>
        match ParseField(r4, ':', 2)
        case None => None
        case Some((sec, r5)) =>
          match ParseField(r5, '.', 3)
          case None => None
          case Some((ms, r6)) => if r6 == "Z" then Some((h, mi, sec, ms)) else None
  }

  /** `new Date(s)` for the two ISO forms the core produces: `YYYY-MM-DD` (UTC
      midnight) and `YYYY-MM-DDTHH:mm:ss.sssZ`. Any other text is an Invalid Date. */
  function ParseDate(s: string): Date {
    match ParseDateFields(s)
    case None => Invalid
    case Some((y, mo, d, rest)) =>
      if rest == [] then MakeDate(y, mo, d, 0, 0, 0, 0)
      else
        match ParseTimeFields(rest)
        case None => Invalid
        case Some((h, mi, sec, ms)) => MakeDate(y, mo, d, h, mi, sec, ms)
  }

  // ---- round trips -----------------------------------------------------------

  /** A year outside 0..9999 is written with a sign and six digits, and read back. */
  lemma SignedYearRoundTrip(y: int, rest: string)
    requires -999999 <= y < 0 || 9999 < y <= 999999
    requires rest == [] || !IsDigit(rest[0])
    ensures ParseYear(YearText(y) + rest) == Some((y, rest))
  {
    var s := YearText(y) + rest;
    var v := if y > 9999 then y else -y;
    assert YearText(y) == [s[0]] + Pad(v, 6);
    assert s[1..7] == Pad(v, 6) && s[7..] == rest;
    assert !IsDigit(s[0]);
    PadRoundTrip(v, 6);
  }

  lemma YearRoundTrip(y: int, rest: string)
    requires -999999 <= y <= 999999
    requires rest == [] || !IsDigit(rest[0])
    ensures ParseYear(YearText(y) + rest) == Some((y, rest))
  {
    if 0 <= y <= 9999 {
      var s := YearText(y) + rest;
      assert s[..4] == Pad(y, 4) && s[4..] == rest;
      PadRoundTrip(y, 4);
    } else {
      SignedYearRoundTrip(y, rest);
    }
  }

  lemma FieldRoundTrip(sep: char, n: nat, width: nat, rest: string)
    requires n < Pow10(width)
    ensures ParseField(Field(sep, n, width) + rest, sep, width) == Some((n, rest))
  {
    var s := Field(sep, n, width) + rest;
    assert s[1..width + 1] == Pad(n, width) && s[width + 1..] == rest;
    PadRoundTrip(n, width);
  }

  lemma {:induction false} DateFieldsRoundTrip(t: Instant, rest: string)
    requires rest == [] || !IsDigit(rest[0])
    ensures ParseDateFields(DateText(t) + rest) == Some((t.year, t.month, t.day, rest))
  {
    var fd := Field('-', t.day, 2) + rest;
    var fm := Field('-', t.month, 2) + fd;
    assert DateText(t) + rest == YearText(t.year) + fm;
    YearRoundTrip(t.year, fm);
    FieldRoundTrip('-', t.month, 2, fd);
    FieldRoundTrip('-', t.day, 2, rest);
  }

  lemma {:induction false} TimeFieldsRoundTrip(t: Instant)
    ensures ParseTimeFields(TimeText(t)) == Some((t.hour, t.minute, t.second, t.millisecond))
  {
    var z := "Z";
    var fms := Field('.', t.millisecond, 3) + z;
    var fs := Field(':', t.second, 2) + fms;
    var fmi := Field(':', t.minute, 2) + fs;
    FieldRoundTrip('T', t.hour, 2, fmi);
    FieldRoundTrip(':', t.minute, 2, fs);
    FieldRoundTrip(':', t.second, 2, fms);
    FieldRoundTrip('.', t.millisecond, 3, z);
  }

  /** `new Date(d.toISOString())` is `d` again, for every valid date. */
  lemma {:induction false} IsoRoundTrip(t: Instant)
    ensures ToIsoString(At(t)).Ok?
    ensures ParseDate(ToIsoString(At(t)).value) == At(t)
  {
    DateFieldsRoundTrip(t, TimeText(t));
    TimeFieldsRoundTrip(t);
  }

  /** `new Date(text)` of the `YYYY-MM-DD` part alone is midnight UTC of that day. */
  lemma {:induction false} DateTextParsesToStartOfDay(t: Instant)
    ensures ParseDate(DateText(t)) == At(StartOfDay(t))
  {
    DateFieldsRoundTrip(t, []);
    assert DateText(t) + [] == DateText(t);
  }

  // ---- String.prototype.split('T')[0] -----------------------------------------

  /** The text before the first `c` of `s`, or all of `s` when `c` does not occur:
      `s.split(c)[0]`. */
  function BeforeFirst(s: string, c: char): (r: string)
    ensures |r| <= |s| && r == s[..|r|] && c !in r
    ensures |r| < |s| ==> s[|r|] == c
  {
    if s == [] then []
    else if s[0] == c then []
    else [s[0]] + BeforeFirst(s[1..], c)
  }

  lemma {:induction false} BeforeFirstOfConcat(a: string, b: string, c: char)
    requires c !in a && |b| > 0 && b[0] == c
    ensures BeforeFirst(a + b, c) == a
  {
    if a != [] {
      assert (a + b)[1..] == a[1..] + b;
      BeforeFirstOfConcat(a[1..], b, c);
    }
  }

  lemma NoTInDateText(t: Instant)
    ensures 'T' !in DateText(t)
  {
    assert forall i :: 0 <= i < |Pad(t.month, 2)| ==> IsDigit(Pad(t.month, 2)[i]);
  }

  /** The date part of `d.toISOString()` is the `YYYY-MM-DD` text. */
  lemma {:induction false} DatePartOfIsoString(t: Instant)
    ensures BeforeFirst(ToIsoString(At(t)).value, 'T') == DateText(t)
  {
    NoTInDateText(t);
    BeforeFirstOfConcat(DateText(t), TimeText(t), 'T');
  }
}
