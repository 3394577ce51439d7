/** The `YYYY-MM-DDTHH:MM:SS` wall-clock text: its formatter and its parser, which reads bytes. A
    `string` here is the text's bytes, one character per byte. */
module WallClock {
  import opened Wrappers
  import opened CivilCalendar
  import opened ReviewAnchors

  datatype Fields = Fields(date: Date, hour: int, minute: int, second: int)

  // ── formatting ─────────────────────────────────────────────────────────

  function DigitChar(d: int): char
    requires 0 <= d < 10
  {
    ('0' as int + d) as char
  }

  function Decimal(n: nat): (s: string)
    ensures |s| > 0
  {
    if n < 10 then [DigitChar(n)] else Decimal(n / 10) + [DigitChar(n % 10)]
  }

  function Zeros(k: int): string {
    if k <= 0 then "" else Zeros(k - 1) + "0"
  }

  /** Zero padding to a width, after the sign; longer numbers are printed whole. */
  function Padded(n: int, width: nat): string {
    if n >= 0 then Zeros(width - |Decimal(n)|) + Decimal(n)
    else "-" + Zeros(width - 1 - |Decimal(-n)|) + Decimal(-n)
  }

  function Format(f: Fields): string {
    Padded(f.date.year, 4) + "-" + Padded(f.date.month, 2) + "-" + Padded(f.date.day, 2)
    + "T" + Padded(f.hour, 2) + ":" + Padded(f.minute, 2) + ":" + Padded(f.second, 2)
  }

  /** `now_local`. */
  function NowLocal(nowMs: int, offsetMinutes: int): string {
    Format(NowFields(nowMs, offsetMinutes))
  }

  function NowFields(nowMs: int, offsetMinutes: int): Fields {
    var clock := LocalDayAndSecs(nowMs, offsetMinutes);
    Fields(CivilFromDays(clock.day), clock.secsOfDay / 3_600, clock.secsOfDay % 3_600 / 60, clock.secsOfDay % 60)
  }

  /** `sunday_anchor`. */
  function SundayAnchor(day: int): string {
    Format(Fields(CivilFromDays(day), 20, 0, 0))
  }

  // ── parsing ────────────────────────────────────────────────────────────

  predicate IsDigit(c: char) {
    '0' <= c <= '9'
  }

  predicate AllDigits(s: string) {
    forall i :: 0 <= i < |s| ==> IsDigit(s[i])
  }

  function Value(s: string): int {
    if s == "" then 0 else 10 * Value(s[..|s| - 1]) + (s[|s| - 1] as int - '0' as int)
  }

  function ParseDigits(s: string): Option<int> {
    if AllDigits(s) then Some(Value(s)) else None
  }

  predicate HasSeparators(s: string) {
    |s| == 19 && s[4] == '-' && s[7] == '-' && s[10] == 'T' && s[13] == ':' && s[16] == ':'
  }

  predicate InRange(f: Fields) {
    Valid(f.date) && 0 <= f.hour <= 23 && 0 <= f.minute <= 59 && 0 <= f.second <= 59
  }

  /** `parse_local_datetime`, without the wording of its errors. */
  function Parse(s: string): Option<Fields> {
    if !HasSeparators(s) then None
    else
      var year, month, day := ParseDigits(s[0..4]), ParseDigits(s[5..7]), ParseDigits(s[8..10]);
      var hour, minute, second := ParseDigits(s[11..13]), ParseDigits(s[14..16]), ParseDigits(s[17..19]);
      if year.None? || month.None? || day.None? || hour.None? || minute.None? || second.None? then None
      else
        var f := Fields(Date(year.value, month.value, day.value), hour.value, minute.value, second.value);
        if month.value == 0 || month.value > 12 then None
        else if day.value == 0 || day.value > DaysInMonth(year.value, month.value) then None
        else if hour.value > 23 || minute.value > 59 || second.value > 59 then None
        else Some(f)
  }

  // ── digits ─────────────────────────────────────────────────────────────

  function Pow10(k: nat): nat {
    if k == 0 then 1 else 10 * Pow10(k - 1)
  }

  lemma {:induction false} DecimalValue(n: nat)
    ensures AllDigits(Decimal(n)) && Value(Decimal(n)) == n
  {
    if n >= 10 {
      DecimalValue(n / 10);
      var s := Decimal(n);
      assert s[..|s| - 1] == Decimal(n / 10);
    }
  }

  lemma {:induction false} DecimalLength(n: nat, k: nat)
    requires k > 0
    ensures |Decimal(n)| <= k <==> n < Pow10(k)
    decreases k
  {
    if n < 10 {
      Pow10Grows(k);
    } else if k > 1 {
      DecimalLength(n / 10, k - 1);
    }
  }

  lemma {:induction false} Pow10Grows(k: nat)
    requires k > 0
    ensures Pow10(k) >= 10
  {
    if k > 1 { Pow10Grows(k - 1); }
  }

  lemma {:induction false} ValueSnoc(s: string, c: char)
    ensures Value(s + [c]) == 10 * Value(s) + (c as int - '0' as int)
  {
    assert (s + [c])[..|s|] == s;
  }

  lemma {:induction false} ZerosAre(k: int)
    ensures |Zeros(k)| == (if k <= 0 then 0 else k) && AllDigits(Zeros(k)) && Value(Zeros(k)) == 0
  {
    if k > 0 {
      ZerosAre(k - 1);
      ValueSnoc(Zeros(k - 1), '0');
      hide Value;
    }
  }

  lemma {:induction false} ZerosValue(k: int, s: string)
    ensures Value(Zeros(k) + s) == Value(s)
  {
    ZerosAre(k);
    if s == "" {
      assert Zeros(k) + s == Zeros(k);
    } else {
      var n := |s| - 1;
      hide Value, Zeros;
      ZerosValue(k, s[..n]);
      ValueSnoc(Zeros(k) + s[..n], s[n]);
      ValueSnoc(s[..n], s[n]);
      assert Zeros(k) + s == (Zeros(k) + s[..n]) + [s[n]];
      assert s == s[..n] + [s[n]];
    }
  }

  /** A number that fits the width is printed with exactly that many digits, and they spell it. */
  lemma {:induction false} PaddedSpells(n: nat, width: nat)
    requires width > 0
    ensures |Padded(n, width)| >= width
    ensures |Padded(n, width)| == width <==> n < Pow10(width)
    ensures AllDigits(Padded(n, width)) && Value(Padded(n, width)) == n
  {
    hide Value, Pow10, Decimal, Zeros;
    DecimalValue(n);
    DecimalLength(n, width);
    ZerosAre(width - |Decimal(n)|);
    ZerosValue(width - |Decimal(n)|, Decimal(n));
  }

  lemma {:induction false} PaddedSign(n: int, width: nat)
    requires n < 0 && width > 1
    ensures Padded(n, width) == "-" + Padded(-n, width - 1)
  {
    hide Decimal, Zeros;
  }

  /** A negative number is its sign and its digits, the sign counted in the width. */
  lemma {:induction false} PaddedSigned(n: int, width: nat)
    requires n < 0 && width > 1
    ensures |Padded(n, width)| >= width
    ensures |Padded(n, width)| == width <==> -n < Pow10(width - 1)
    ensures Padded(n, width)[0] == '-' && AllDigits(Padded(n, width)[1..]) && Value(Padded(n, width)[1..]) == -n
  {
    hide *;
    PaddedSpells(-n, width - 1);
    PaddedSign(n, width);
    assert ("-" + Padded(-n, width - 1))[1..] == Padded(-n, width - 1);
  }

  lemma {:induction false} ValueBound(s: string)
    requires AllDigits(s)
    ensures 0 <= Value(s) < Pow10(|s|)
  {
    if s != "" { ValueBound(s[..|s| - 1]); }
  }

  /** Digits of one length are ordered as the numbers they spell. */
  predicate LexLess(a: string, b: string) {
    a != "" && b != "" && (a[0] < b[0] || (a[0] == b[0] && LexLess(a[1..], b[1..])))
  }

  /** Dropping the last character of two texts of one length. */
  lemma {:induction false} LexByLast(a: string, b: string)
    requires |a| == |b| > 0
    ensures var n := |a| - 1;
            LexLess(a, b) <==> LexLess(a[..n], b[..n]) || (a[..n] == b[..n] && a[n] < b[n])
  {
    var n := |a| - 1;
    if n > 0 {
      LexByLast(a[1..], b[1..]);
      assert a[1..][..n - 1] == a[..n][1..] && b[1..][..n - 1] == b[..n][1..];
      assert a[0] == a[..n][0] && b[0] == b[..n][0];
      assert a[..n] == [a[0]] + a[..n][1..] && b[..n] == [b[0]] + b[..n][1..];
    }
  }

  lemma {:induction false} ValueOrders(a: string, b: string)
    requires AllDigits(a) && AllDigits(b) && |a| == |b|
    ensures LexLess(a, b) <==> Value(a) < Value(b)
    ensures a == b <==> Value(a) == Value(b)
  {
    if a != "" {
      var n := |a| - 1;
      LexByLast(a, b);
      ValueOrders(a[..n], b[..n]);
      assert a == a[..n] + [a[n]] && b == b[..n] + [b[n]];
    }
  }

  lemma {:induction false} PaddedOf(s: string)
    requires AllDigits(s) && s != ""
    ensures Value(s) >= 0 && Padded(Value(s), |s|) == s
  {
    ValueBound(s);
    PaddedSpells(Value(s), |s|);
    ValueOrders(Padded(Value(s), |s|), s);
  }

  // ── the round trips ────────────────────────────────────────────────────

  /** A nineteen-byte text and the six runs of digits it is made of. */
  function Pieces(y: string, mo: string, d: string, h: string, mi: string, s: string): string {
    y + "-" + mo + "-" + d + "T" + h + ":" + mi + ":" + s
  }

  lemma PiecesAt(y: string, mo: string, d: string, h: string, mi: string, s: string)
    requires |y| == 4 && |mo| == |d| == |h| == |mi| == |s| == 2
    ensures var t := Pieces(y, mo, d, h, mi, s);
            && HasSeparators(t)
            && t[0..4] == y && t[5..7] == mo && t[8..10] == d
            && t[11..13] == h && t[14..16] == mi && t[17..19] == s
  {
  }

  lemma PiecesOf(t: string)
    requires HasSeparators(t)
    ensures t == Pieces(t[0..4], t[5..7], t[8..10], t[11..13], t[14..16], t[17..19])
  {
  }

  lemma TwoDigits(n: int)
    requires 0 <= n <= 99
    ensures |Padded(n, 2)| == 2 && ParseDigits(Padded(n, 2)) == Some(n)
  {
    PaddedSpells(n, 2);
    assert Pow10(2) == 10 * Pow10(1) == 100;
  }

  lemma FourDigits(n: int)
    requires 0 <= n
    ensures |Padded(n, 4)| >= 4 && (|Padded(n, 4)| == 4 <==> n <= 9_999)
    ensures ParseDigits(Padded(n, 4)) == Some(n)
  {
    PaddedSpells(n, 4);
    assert Pow10(2) == 10 * Pow10(1) == 100;
    assert Pow10(4) == 10 * Pow10(3) == 10_000;
  }

  lemma TwoDigitFields(f: Fields)
    requires InRange(f)
    ensures |Padded(f.date.month, 2)| == 2 && ParseDigits(Padded(f.date.month, 2)) == Some(f.date.month)
    ensures |Padded(f.date.day, 2)| == 2 && ParseDigits(Padded(f.date.day, 2)) == Some(f.date.day)
    ensures |Padded(f.hour, 2)| == 2 && ParseDigits(Padded(f.hour, 2)) == Some(f.hour)
    ensures |Padded(f.minute, 2)| == 2 && ParseDigits(Padded(f.minute, 2)) == Some(f.minute)
    ensures |Padded(f.second, 2)| == 2 && ParseDigits(Padded(f.second, 2)) == Some(f.second)
  {
    TwoDigits(f.date.month);
    TwoDigits(f.date.day);
    TwoDigits(f.hour);
    TwoDigits(f.minute);
    TwoDigits(f.second);
  }

  lemma FormatIsPieces(f: Fields)
    ensures Format(f) == Pieces(Padded(f.date.year, 4), Padded(f.date.month, 2), Padded(f.date.day, 2),
                                Padded(f.hour, 2), Padded(f.minute, 2), Padded(f.second, 2))
  {
  }

  lemma ParsePieces(f: Fields)
    requires InRange(f) && 0 <= f.date.year <= 9_999
    ensures Parse(Format(f)) == Some(f)
  {
    hide Padded, Format, Pieces, ParseDigits;
    TwoDigitFields(f);
    FourDigits(f.date.year);
    FormatIsPieces(f);
    PiecesAt(Padded(f.date.year, 4), Padded(f.date.month, 2), Padded(f.date.day, 2),
             Padded(f.hour, 2), Padded(f.minute, 2), Padded(f.second, 2));
  }

  /** A year outside 0-9999 prints a text the parser refuses: too long, or with a sign. */
  lemma OddYears(f: Fields)
    requires InRange(f) && !(0 <= f.date.year <= 9_999)
    ensures Parse(Format(f)) == None
  {
    hide Format, Pieces, ParseDigits;
    TwoDigitFields(f);
    FormatIsPieces(f);
    if f.date.year >= 0 {
      FourDigits(f.date.year);
      TooLong(f);
    } else {
      Signed(f);
    }
  }

  lemma TooLong(f: Fields)
    requires |Padded(f.date.year, 4)| > 4
    requires |Padded(f.date.month, 2)| == |Padded(f.date.day, 2)| == |Padded(f.hour, 2)| == |Padded(f.minute, 2)| == |Padded(f.second, 2)| == 2
    ensures |Format(f)| > 19
  {
  }

  lemma Signed(f: Fields)
    requires f.date.year < 0
    ensures |Format(f)| > 4 && Format(f)[0] == '-' && Parse(Format(f)) == None
  {
  }

  /** Parsing what the formatter printed gives the same six fields back, for exactly the years 0-9999. */
  lemma FormatRoundTrip(f: Fields)
    requires InRange(f)
    ensures Parse(Format(f)) == Some(f) <==> 0 <= f.date.year <= 9_999
    ensures Parse(Format(f)) == None <==> !(0 <= f.date.year <= 9_999)
  {
    if 0 <= f.date.year <= 9_999 { ParsePieces(f); } else { OddYears(f); }
  }

  /** Every accepted text is in range and is the one text the formatter prints for its fields. */
  lemma ParseRoundTrip(s: string)
    requires Parse(s).Some?
    ensures InRange(Parse(s).value) && 0 <= Parse(s).value.date.year <= 9_999
    ensures Format(Parse(s).value) == s
  {
    PiecesOf(s);
    DigitsFit(s[0..4]);
    DigitsFit(s[5..7]);
    DigitsFit(s[8..10]);
    DigitsFit(s[11..13]);
    DigitsFit(s[14..16]);
    DigitsFit(s[17..19]);
    FormatIsPieces(Parse(s).value);
  }

  lemma DigitsFit(s: string)
    requires (|s| == 2 || |s| == 4) && ParseDigits(s).Some?
    ensures 0 <= ParseDigits(s).value <= 9_999 && Padded(ParseDigits(s).value, |s|) == s
  {
    PaddedOf(s);
    ValueBound(s);
    assert Pow10(2) == 10 * Pow10(1) == 100;
    assert Pow10(4) == 10 * Pow10(3) == 10_000;
  }

  // ── order ──────────────────────────────────────────────────────────────

  /** The tuple order the validators compare parsed datetimes with. */
  predicate Earlier(a: Fields, b: Fields) {
    Before(a.date, b.date)
    || (a.date == b.date
        && (a.hour < b.hour
            || (a.hour == b.hour && (a.minute < b.minute || (a.minute == b.minute && a.second < b.second)))))
  }

  lemma {:induction false} LexAppend(a: string, b: string, x: string, y: string)
    requires |a| == |b|
    ensures LexLess(a + x, b + y) <==> LexLess(a, b) || (a == b && LexLess(x, y))
  {
    if a == "" {
      assert a + x == x && b + y == y;
    } else {
      LexAppend(a[1..], b[1..], x, y);
      assert (a + x)[1..] == a[1..] + x && (b + y)[1..] == b[1..] + y;
      assert a == [a[0]] + a[1..] && b == [b[0]] + b[1..];
    }
  }

  /** The text from byte `i` on, for two accepted texts: one run of digits, its separator, the rest. */
  lemma LexRun(a: string, b: string, i: nat, j: nat)
    requires |a| == |b| == 19 && i < j <= 19
    requires AllDigits(a[i..j]) && AllDigits(b[i..j]) && (j < 19 ==> a[j] == b[j])
    ensures LexLess(a[i..], b[i..]) <==>
              || Value(a[i..j]) < Value(b[i..j])
              || (Value(a[i..j]) == Value(b[i..j]) && j < 19 && LexLess(a[j + 1..], b[j + 1..]))
  {
    ValueOrders(a[i..j], b[i..j]);
    LexAppend(a[i..j], b[i..j], a[j..], b[j..]);
    assert a[i..j] + a[j..] == a[i..] && b[i..j] + b[j..] == b[i..];
    if j < 19 {
      assert a[j..][1..] == a[j + 1..] && b[j..][1..] == b[j + 1..];
    }
  }

  lemma TimeOrder(a: string, b: string)
    requires Parse(a).Some? && Parse(b).Some?
    ensures var x, y := Parse(a).value, Parse(b).value;
            LexLess(a[11..], b[11..]) <==>
              || x.hour < y.hour
              || (x.hour == y.hour && (x.minute < y.minute || (x.minute == y.minute && x.second < y.second)))
  {
    hide LexLess, Value, AllDigits, DaysInMonth;
    LexRun(a, b, 11, 13);
    LexRun(a, b, 14, 16);
    LexRun(a, b, 17, 19);
  }

  lemma {:induction false} DateOrder(a: string, b: string)
    requires Parse(a).Some? && Parse(b).Some?
    ensures var x, y := Parse(a).value.date, Parse(b).value.date;
            LexLess(a, b) <==> Before(x, y) || (x == y && LexLess(a[11..], b[11..]))
  {
    hide LexLess, Value, AllDigits, DaysInMonth;
    assert a[0..] == a && b[0..] == b;
    LexRun(a, b, 0, 4);
    LexRun(a, b, 5, 7);
    LexRun(a, b, 8, 10);
  }

  /** Accepted texts compare byte by byte as the instants they name. */
  lemma {:induction false} TextOrderIsTimeOrder(a: string, b: string)
    requires Parse(a).Some? && Parse(b).Some?
    ensures LexLess(a, b) <==> Earlier(Parse(a).value, Parse(b).value)
    ensures a == b <==> Parse(a) == Parse(b)
  {
    DateOrder(a, b);
    TimeOrder(a, b);
    hide LexLess, Parse, Before, Format;
    ParseRoundTrip(a);
    ParseRoundTrip(b);
  }

  // ── the clock, printed and read back ───────────────────────────────────

  /** The second a wall-clock reading names. */
  function SecondOf(f: Fields): int
    requires 1 <= f.date.month <= 12
  {
    DayNumber(f.date) * SECS_PER_DAY + f.hour * 3_600 + f.minute * 60 + f.second
  }

  lemma NowIsInRange(nowMs: int, offsetMinutes: int)
    ensures InRange(NowFields(nowMs, offsetMinutes))
    ensures SecondOf(NowFields(nowMs, offsetMinutes)) == LocalMs(nowMs, offsetMinutes) / 1000
  {
    hide CivilFromDays, DayNumber;
    var clock := LocalDayAndSecs(nowMs, offsetMinutes);
    CivilCounts(clock.day);
    ClockParts(clock.secsOfDay);
    var localSecs := LocalMs(nowMs, offsetMinutes) / 1000;
    assert localSecs == localSecs / SECS_PER_DAY * SECS_PER_DAY + localSecs % SECS_PER_DAY;
  }

  lemma ClockParts(secs: int)
    requires 0 <= secs < SECS_PER_DAY
    ensures 0 <= secs / 3_600 <= 23 && 0 <= secs % 3_600 / 60 <= 59 && 0 <= secs % 60 <= 59
    ensures secs / 3_600 * 3_600 + secs % 3_600 / 60 * 60 + secs % 60 == secs
  {
  }

  /** The text is accepted and names this second. */
  predicate Names(s: string, second: int) {
    Parse(s).Some? && InRange(Parse(s).value) && SecondOf(Parse(s).value) == second
  }

  /** Reading `now_local` back names the local second of the instant, floored, pre-1970 included;
      outside the years 0-9999 it cannot be read back at all. */
  lemma NowLocalReadsBack(nowMs: int, offsetMinutes: int)
    ensures Names(NowLocal(nowMs, offsetMinutes), LocalMs(nowMs, offsetMinutes) / 1000)
            <==> 0 <= NowFields(nowMs, offsetMinutes).date.year <= 9_999
    ensures Parse(NowLocal(nowMs, offsetMinutes)).Some?
            <==> 0 <= NowFields(nowMs, offsetMinutes).date.year <= 9_999
  {
    hide NowFields, Format, Parse, SecondOf;
    NowIsInRange(nowMs, offsetMinutes);
    FormatRoundTrip(NowFields(nowMs, offsetMinutes));
  }

  /** An anchor's text is accepted exactly when its year has four digits, and then names 20:00 of its day. */
  lemma AnchorReadsBack(day: int)
    ensures var read := Parse(SundayAnchor(day));
            && (read.Some? <==> 0 <= CivilFromDays(day).year <= 9_999)
            && (read.Some? ==> read.value == Fields(CivilFromDays(day), 20, 0, 0))
    ensures Valid(CivilFromDays(day)) && SecondOf(Fields(CivilFromDays(day), 20, 0, 0)) * 1000 == AnchorMs(day)
  {
    hide CivilFromDays, DayNumber, Format, Parse;
    CivilCounts(day);
    FormatRoundTrip(Fields(CivilFromDays(day), 20, 0, 0));
  }

  /** The anchor strikes at 20:00:00: the wall clock printed at that very millisecond, under any offset, is the
      anchor's text. */
  lemma AnchorStrikesAtEight(day: int, offsetMinutes: int)
    ensures NowLocal(AnchorMs(day) - offsetMinutes * 60_000, offsetMinutes) == SundayAnchor(day)
    ensures NowFields(AnchorMs(day) - offsetMinutes * 60_000, offsetMinutes) == Fields(CivilFromDays(day), 20, 0, 0)
  {
    hide CivilFromDays, Format;
    assert LocalDayAndSecs(AnchorMs(day) - offsetMinutes * 60_000, offsetMinutes) == LocalClock(day, 72_000);
  }
}
