/** Reading the creation stamps Docker writes: RFC 3339, section 5.6, cut down to Python's microseconds. */
module Timestamps {
  import opened Lifecycle

  // ---- The calendar --------------------------------------------------------

  predicate Leap(y: int) {
    y % 4 == 0 && (y % 100 != 0 || y % 400 == 0)
  }

  function DaysInMonth(y: int, m: int): int
    requires 1 <= m <= 12
  {
    if m == 2 then (if Leap(y) then 29 else 28)
    else if m in {4, 6, 9, 11} then 30 else 31
  }

  function DaysBeforeYear(y: int): int {
    (y - 1) * 365 + (y - 1) / 4 - (y - 1) / 100 + (y - 1) / 400
  }

  function DaysBeforeMonth(y: int, m: int): int
    requires 1 <= m <= 12
  {
    if m == 1 then 0 else DaysBeforeMonth(y, m - 1) + DaysInMonth(y, m - 1)
  }

  /** Days since the day before 0001-01-01. */
  function Ordinal(y: int, m: int, d: int): int
    requires 1 <= m <= 12
  {
    DaysBeforeYear(y) + DaysBeforeMonth(y, m) + d
  }

  const EPOCH_ORDINAL := 719163

  predicate ValidDate(y: int, m: int, d: int) {
    1 <= m <= 12 && 1 <= d <= DaysInMonth(y, m)
  }

  datatype Date = Date(y: int, m: int, d: int)

  function NextDay(t: Date): (n: Date)
    requires ValidDate(t.y, t.m, t.d)
    ensures ValidDate(n.y, n.m, n.d)
  {
    if t.d < DaysInMonth(t.y, t.m) then t.(d := t.d + 1)
    else if t.m < 12 then Date(t.y, t.m + 1, 1)
    else Date(t.y + 1, 1, 1)
  }

  lemma YearLength(y: int)
    ensures DaysBeforeYear(y + 1) == DaysBeforeYear(y) + YearDays(y)
  {
    FourthYears(y);
    CenturyYears(y);
    FourthCenturies(y);
  }

  lemma FourthYears(y: int)
    ensures y / 4 == (y - 1) / 4 + (if y % 4 == 0 then 1 else 0)
  {
  }

  lemma CenturyYears(y: int)
    ensures y / 100 == (y - 1) / 100 + (if y % 100 == 0 then 1 else 0)
    ensures y % 100 == 0 ==> y % 4 == 0
  {
  }

  lemma FourthCenturies(y: int)
    ensures y / 400 == (y - 1) / 400 + (if y % 400 == 0 then 1 else 0)
    ensures y % 400 == 0 ==> y % 100 == 0
  {
  }

  function YearDays(y: int): int {
    if Leap(y) then 366 else 365
  }

  lemma MonthsFillTheYear(y: int)
    ensures DaysBeforeMonth(y, 12) + 31 == YearDays(y)
  {
    assert DaysBeforeMonth(y, 2) == 31;
    assert DaysBeforeMonth(y, 3) == 31 + DaysInMonth(y, 2);
    assert DaysBeforeMonth(y, 5) == DaysBeforeMonth(y, 3) + 61;
    assert DaysBeforeMonth(y, 7) == DaysBeforeMonth(y, 5) + 61;
    assert DaysBeforeMonth(y, 9) == DaysBeforeMonth(y, 7) + 62;
    assert DaysBeforeMonth(y, 11) == DaysBeforeMonth(y, 9) + 61;
  }

  lemma NewYear(y: int)
    ensures Ordinal(y + 1, 1, 1) == Ordinal(y, 12, 31) + 1
  {
    YearLength(y);
    MonthsFillTheYear(y);
  }

  lemma NewMonth(y: int, m: int)
    requires 1 <= m < 12
    ensures Ordinal(y, m + 1, 1) == Ordinal(y, m, DaysInMonth(y, m)) + 1
  {
  }

  /** The calendar is right: each day is followed by the next, without gaps, leap years included. */
  lemma OrdinalCountsDays(t: Date)
    requires ValidDate(t.y, t.m, t.d)
    ensures var n := NextDay(t); Ordinal(n.y, n.m, n.d) == Ordinal(t.y, t.m, t.d) + 1
  {
    if t.d == DaysInMonth(t.y, t.m) {
      if t.m == 12 {
        NewYear(t.y);
      } else {
        NewMonth(t.y, t.m);
      }
    }
  }

  /** And it starts where it should. */
  lemma OrdinalAnchors()
    ensures Ordinal(1, 1, 1) == 1 && Ordinal(1970, 1, 1) == EPOCH_ORDINAL
  {
    assert DaysBeforeYear(1) == 0 && DaysBeforeYear(1970) == 719162;
    forall y: int
      ensures Ordinal(y, 1, 1) == DaysBeforeYear(y) + 1
    {
    }
  }

  // ---- Text ----------------------------------------------------------------

  predicate IsDigit(c: char) {
    '0' <= c <= '9'
  }

  predicate AllDigits(s: string) {
    forall i :: 0 <= i < |s| ==> IsDigit(s[i])
  }

  function Val(c: char): int {
    (c as int) - ('0' as int)
  }

  function Digit(k: nat): (c: char)
    requires k < 10
    ensures IsDigit(c) && Val(c) == k
  {
    "0123456789"[k]
  }

  function Tens(n: nat): (c: char)
    requires n < 100
    ensures IsDigit(c) && Val(c) == n / 10
  {
    Digit(n / 10)
  }

  function Ones(n: nat): (c: char)
    ensures IsDigit(c) && Val(c) == n % 10
  {
    Digit(n % 10)
  }

  /** k digits (two or four) stand at position i. */
  predicate Digits(s: string, i: nat, k: nat) {
    i + k <= |s| && (k >= 2 ==> IsDigit(s[i]) && IsDigit(s[i + 1])) && (k >= 4 ==> IsDigit(s[i + 2]) && IsDigit(s[i + 3]))
  }

  function Num2(s: string, i: nat): int
    requires i + 2 <= |s|
  {
    10 * Val(s[i]) + Val(s[i + 1])
  }

  /** A decimal fraction in units of 10^-n: the first n digits, missing ones zero. */
  function Fraction(digits: string, n: nat): int {
    if n == 0 then 0
    else 10 * Fraction(digits, n - 1) + (if n <= |digits| then Val(digits[n - 1]) else 0)
  }

  function DigitRun(s: string): (n: nat)
    ensures n <= |s| && AllDigits(s[..n])
    ensures n < |s| ==> !IsDigit(s[n])
  {
    if s == "" || !IsDigit(s[0]) then 0 else
      var n := DigitRun(s[1..]);
      assert s[..n + 1] == [s[0]] + s[1..][..n];
      n + 1
  }

  // ---- _created_at ---------------------------------------------------------

  /** `raw.replace("Z", "+00:00")` */
  function ReplaceZ(s: string): string {
    if s == "" then "" else (if s[0] == 'Z' then "+00:00" else [s[0]]) + ReplaceZ(s[1..])
  }

  /** The regular expression: after a point, digits past the sixth go. */
  function Trim(s: string): string {
    if s == "" then ""
    else if s[0] == '.' && DigitRun(s[1..]) > 6 then s[..7] + Trim(s[1 + DigitRun(s[1..])..])
    else [s[0]] + Trim(s[1..])
  }

  /** `+hh:mm`, `-hh:mm` or nothing; Python wants it under a day. */
  function OffsetSeconds(s: string): Option<int> {
    if s == "" then Some(0)
    else if |s| == 6 && (s[0] == '+' || s[0] == '-') && Digits(s, 1, 2) && s[3] == ':' && Digits(s, 4, 2)
         && Num2(s, 1) * 60 + Num2(s, 4) < 1440
    then Some(if s[0] == '+' then 3600 * Num2(s, 1) + 60 * Num2(s, 4) else -3600 * Num2(s, 1) - 60 * Num2(s, 4))
    else None
  }

  function Micros(fraction: int, offset: int): int {
    fraction - offset * 1_000_000
  }

  /** What follows the seconds, `[.ffffff][+hh:mm]`, as microseconds to add to the clock reading. */
  function ReadTail(rest: string): Option<int> {
    var run := if rest != "" && rest[0] == '.' then DigitRun(rest[1..]) else 0;
    var offset := OffsetSeconds(if run > 0 then rest[1 + run..] else rest);
    if offset.None? then None
    else Some(Micros(if run > 0 then Fraction(rest[1..1 + run], 6) else 0, offset.value))
  }

  /** `2024-01-31T23:59:59`, seconds since the epoch; Python's years start at 1 and its minutes have 60 seconds. */
  function ReadClock(s: string): Option<int>
    requires |s| == 19
  {
    if Digits(s, 0, 4) && s[4] == '-' && Digits(s, 5, 2) && s[7] == '-' && Digits(s, 8, 2)
       && Digits(s, 11, 2) && s[13] == ':' && Digits(s, 14, 2) && s[16] == ':' && Digits(s, 17, 2)
    then
      var y := 100 * Num2(s, 0) + Num2(s, 2);
      if y < 1 || !ValidDate(y, Num2(s, 5), Num2(s, 8)) || Num2(s, 11) > 23 || Num2(s, 14) > 59 || Num2(s, 17) > 59
      then None
      else Some(Seconds(y, Num2(s, 5), Num2(s, 8), Num2(s, 11), Num2(s, 14), Num2(s, 17)))
    else None
  }

  /** Microseconds of `2024-01-31T23:59:59[.ffffff][+hh:mm]`, as Python's datetime.fromisoformat reads it. */
  function FromIso(s: string): Option<Time> {
    if |s| < 19 then None else
      var secs, tail := ReadClock(s[..19]), ReadTail(s[19..]);
      if secs.None? || tail.None? then None else Some(Later(secs.value, tail.value))
  }

  /** So many microseconds after a whole second. */
  function Later(secs: int, micros: int): int {
    secs * 1_000_000 + micros
  }

  function Seconds(y: int, m: int, d: int, h: int, mi: int, sec: int): int
    requires 1 <= m <= 12
  {
    (Ordinal(y, m, d) - EPOCH_ORDINAL) * 86400 + h * 3600 + mi * 60 + sec
  }

  /** The stamp read off a raw attribute; None when it is missing, empty or unreadable. */
  function ReadRaw(raw: Option<string>): Option<Time> {
    if raw.None? || raw.value == "" then None else FromIso(Trim(ReplaceZ(raw.value)))
  }

  function CreatedAt(raw: Option<string>, now: Time): Time {
    var t := ReadRaw(raw);
    if t.Some? then t.value else now
  }

  // ---- RFC 3339, section 5.6 -----------------------------------------------

  datatype Offset = Zulu | LowerZulu | Ahead(hours: nat, minutes: nat) | Behind(hours: nat, minutes: nat)

  datatype Stamp = Stamp(
    year: nat, month: nat, day: nat, separator: char, hour: nat, minute: nat, second: nat, fraction: string, offset: Offset)

  /** A date-time of the grammar: a second of 60 is a leap second (section 5.7), and the year 0000 is allowed. */
  predicate Rfc3339(t: Stamp) {
    && t.year < 10000 && ValidDate(t.year, t.month, t.day) && t.hour < 24 && t.minute < 60 && t.second <= 60
    && t.separator in "Tt " && AllDigits(t.fraction)
    && UnderADay(t.offset)
  }

  predicate UnderADay(o: Offset) {
    o.Zulu? || o.LowerZulu? || (o.hours < 24 && o.minutes < 60)
  }

  function OffsetText(o: Offset): string
    requires UnderADay(o)
  {
    if o.Zulu? then "Z"
    else if o.LowerZulu? then "z"
    else [if o.Ahead? then '+' else '-', Tens(o.hours), Ones(o.hours), ':', Tens(o.minutes), Ones(o.minutes)]
  }

  function OffsetOf(o: Offset): int {
    match o
    case Zulu => 0
    case LowerZulu => 0
    case Ahead(h, m) => 3600 * h + 60 * m
    case Behind(h, m) => -3600 * h - 60 * m
  }

  function Clock(t: Stamp): string
    requires Rfc3339(t)
  {
    [Tens(t.year / 100), Ones(t.year / 100), Tens(t.year % 100), Ones(t.year % 100), '-',
     Tens(t.month), Ones(t.month), '-', Tens(t.day), Ones(t.day), t.separator,
     Tens(t.hour), Ones(t.hour), ':', Tens(t.minute), Ones(t.minute), ':', Tens(t.second), Ones(t.second)]
  }

  function Text(t: Stamp): string
    requires Rfc3339(t)
  {
    Clock(t) + (if t.fraction == "" then "" else "." + t.fraction) + OffsetText(t.offset)
  }

  /** The instant a stamp names, to the nanosecond. */
  function Nanos(t: Stamp): int
    requires Rfc3339(t)
  {
    Instant(t) * 1_000_000_000 + Fraction(t.fraction, 9)
  }

  /** What the two clean-ups make of the fraction and of the offset. */
  function SixDigits(digits: string): string {
    if |digits| > 6 then digits[..6] else digits
  }

  function PlainOffset(o: Offset): string
    requires UnderADay(o)
  {
    if o.Zulu? then "+00:00" else OffsetText(o)
  }

  // ---- Proof ---------------------------------------------------------------

  lemma {:induction false} ReplaceZAppend(a: string, b: string)
    requires 'Z' !in a
    ensures ReplaceZ(a + b) == a + ReplaceZ(b)
  {
    if a == "" {
      assert a + b == b;
    } else {
      ReplaceZAppend(a[1..], b);
      assert (a + b)[1..] == a[1..] + b;
    }
  }

  lemma {:induction false} TrimAppend(a: string, b: string)
    requires '.' !in a
    ensures Trim(a + b) == a + Trim(b)
  {
    if a == "" {
      assert a + b == b;
    } else {
      TrimAppend(a[1..], b);
      TrimStep(a + b);
      assert (a + b)[1..] == a[1..] + b;
    }
  }

  lemma TrimStep(s: string)
    requires s != "" && s[0] != '.'
    ensures Trim(s) == [s[0]] + Trim(s[1..])
  {
  }

  lemma {:induction false} DigitRunIs(a: string, b: string)
    requires AllDigits(a) && (b == "" || !IsDigit(b[0]))
    ensures DigitRun(a + b) == |a|
  {
    if a == "" {
      assert a + b == b;
    } else {
      assert (a + b)[1..] == a[1..] + b;
      DigitRunIs(a[1..], b);
    }
  }

  lemma TrimFraction(digits: string, tail: string)
    requires digits != "" && AllDigits(digits) && tail != "" && !IsDigit(tail[0]) && '.' !in tail
    ensures Trim("." + digits + tail) == "." + SixDigits(digits) + tail
  {
    var s := "." + digits + tail;
    assert s[1..] == digits + tail;
    DigitRunIs(digits, tail);
    TrimAppend(tail, "");
    assert tail + "" == tail;
    if |digits| > 6 {
      assert s[..7] == "." + digits[..6] && s[1 + |digits|..] == tail;
    } else {
      TrimAppend(digits + tail, "");
      assert digits + tail + "" == digits + tail;
    }
  }

  /** What reaches the parser: no Z, and at most six digits. */
  lemma Cleaned(t: Stamp)
    requires Rfc3339(t)
    ensures var o := PlainOffset(t.offset);
            var f := SixDigits(t.fraction);
            Trim(ReplaceZ(Text(t))) == Clock(t) + Tail(f, o)
  {
    var o := PlainOffset(t.offset);
    var head := Clock(t) + (if t.fraction == "" then "" else "." + t.fraction);
    NoLetters(t);
    ReplaceZAppend(head, OffsetText(t.offset));
    OffsetCleaned(t.offset);
    assert ReplaceZ(Text(t)) == head + o;
    TrimHead(Clock(t), t.fraction, o);
  }

  lemma TrimHead(clock: string, digits: string, o: string)
    requires '.' !in clock && AllDigits(digits) && o != "" && !IsDigit(o[0]) && '.' !in o
    ensures var f := SixDigits(digits);
            Trim(clock + (if digits == "" then "" else "." + digits) + o) == clock + Tail(f, o)
  {
    if digits == "" {
      TrimAppend(clock + o, "");
      assert clock + o + "" == clock + o == clock + "" + o == clock + Tail("", o);
    } else {
      TrimFraction(digits, o);
      TrimAppend(clock, "." + digits + o);
      assert clock + ("." + digits) + o == clock + ("." + digits + o);
      assert clock + ("." + SixDigits(digits) + o) == clock + Tail(SixDigits(digits), o);
    }
  }

  lemma NoLetters(t: Stamp)
    requires Rfc3339(t)
    ensures 'Z' !in Clock(t) && '.' !in Clock(t) && 'Z' !in t.fraction
  {
  }

  /** The parser does not know the lower-case z. */
  function OffsetRead(o: Offset): Option<int> {
    if o.LowerZulu? then None else Some(OffsetOf(o))
  }

  lemma OffsetCleaned(o: Offset)
    requires UnderADay(o)
    ensures var s := PlainOffset(o);
            ReplaceZ(OffsetText(o)) == s && s != "" && '.' !in s && !IsDigit(s[0]) && OffsetSeconds(s) == OffsetRead(o)
  {
    if o.LowerZulu? {
      assert "z"[1..] == "";
      assert ReplaceZ("") == "";
    } else if o.Zulu? {
      assert "Z"[1..] == "";
      assert ReplaceZ("") == "";
      SignedOffset('+', 0, 0);
      assert ['+', Tens(0), Ones(0), ':', Tens(0), Ones(0)] == "+00:00";
    } else {
      SignedOffset(if o.Ahead? then '+' else '-', o.hours, o.minutes);
    }
  }

  lemma SignedOffset(sign: char, h: nat, m: nat)
    requires (sign == '+' || sign == '-') && h < 24 && m < 60
    ensures var s := [sign, Tens(h), Ones(h), ':', Tens(m), Ones(m)];
            ReplaceZ(s) == s && '.' !in s
            && OffsetSeconds(s) == Some(if sign == '+' then 3600 * h + 60 * m else -3600 * h - 60 * m)
  {
    var s := [sign, Tens(h), Ones(h), ':', Tens(m), Ones(m)];
    assert Num2(s, 1) == h && Num2(s, 4) == m;
    assert forall i :: 0 <= i < 6 ==> IsDigit(s[i]) || s[i] == sign || s[i] == ':';
    ReplaceZAppend(s, "");
    assert s + "" == s;
  }

  lemma ClockNumbers(t: Stamp)
    requires Rfc3339(t)
    ensures var s := Clock(t);
            && 100 * Num2(s, 0) + Num2(s, 2) == t.year && Num2(s, 5) == t.month && Num2(s, 8) == t.day
            && Num2(s, 11) == t.hour && Num2(s, 14) == t.minute && Num2(s, 17) == t.second
  {
    YearNumber(t);
    DateNumbers(t);
    TimeNumbers(t);
  }

  lemma YearNumber(t: Stamp)
    requires Rfc3339(t)
    ensures 100 * Num2(Clock(t), 0) + Num2(Clock(t), 2) == t.year
  {
    TwoDigits(Clock(t), 0, t.year / 100);
    TwoDigits(Clock(t), 2, t.year % 100);
  }

  lemma DateNumbers(t: Stamp)
    requires Rfc3339(t)
    ensures Num2(Clock(t), 5) == t.month && Num2(Clock(t), 8) == t.day
  {
    TwoDigits(Clock(t), 5, t.month);
    TwoDigits(Clock(t), 8, t.day);
  }

  lemma TimeNumbers(t: Stamp)
    requires Rfc3339(t)
    ensures Num2(Clock(t), 11) == t.hour && Num2(Clock(t), 14) == t.minute && Num2(Clock(t), 17) == t.second
  {
    TwoDigits(Clock(t), 11, t.hour);
    TwoDigits(Clock(t), 14, t.minute);
    TwoDigits(Clock(t), 17, t.second);
  }

  lemma TwoDigits(s: string, i: nat, n: nat)
    requires n < 100 && i + 2 <= |s| && s[i] == Tens(n) && s[i + 1] == Ones(n)
    ensures Num2(s, i) == n
  {
  }

  lemma ClockRead(t: Stamp)
    requires Rfc3339(t)
    ensures ReadClock(Clock(t)) == ClockReading(t)
  {
    ClockNumbers(t);
  }

  function ClockReading(t: Stamp): Option<int>
    requires Rfc3339(t)
  {
    if OnTheClock(t) then Some(Seconds(t.year, t.month, t.day, t.hour, t.minute, t.second)) else None
  }

  lemma TailSplit(f: string, o: string)
    requires f != "" && AllDigits(f) && o != "" && !IsDigit(o[0])
    ensures var rest := "." + f + o;
            DigitRun(rest[1..]) == |f| && rest[1 + |f|..] == o && rest[1..1 + |f|] == f
  {
    var rest := "." + f + o;
    assert rest[1..] == f + o;
    DigitRunIs(f, o);
  }

  function Tail(f: string, o: string): string {
    if f == "" then o else "." + f + o
  }

  lemma {:induction false} NoFraction(n: nat)
    ensures Fraction("", n) == 0
  {
    if n > 0 {
      NoFraction(n - 1);
    }
  }

  function MicrosOf(fraction: int, offset: Option<int>): Option<int> {
    if offset.Some? then Some(Micros(fraction, offset.value)) else None
  }

  lemma TailRead(f: string, o: string)
    requires AllDigits(f) && o != "" && !IsDigit(o[0]) && o[0] != '.'
    ensures ReadTail(Tail(f, o)) == MicrosOf(Fraction(f, 6), OffsetSeconds(o))
  {
    if f != "" {
      FractionRead(f, o);
    } else {
      NoFraction(6);
    }
  }

  lemma FractionRead(f: string, o: string)
    requires f != "" && AllDigits(f) && o != "" && !IsDigit(o[0])
    ensures ReadTail("." + f + o) == MicrosOf(Fraction(f, 6), OffsetSeconds(o))
  {
    TailSplit(f, o);
    SplitRead("." + f + o, f, o);
  }

  lemma SplitRead(rest: string, f: string, o: string)
    requires rest != "" && rest[0] == '.' && 0 < |f| < |rest| && DigitRun(rest[1..]) == |f|
    requires rest[1..1 + |f|] == f && rest[1 + |f|..] == o
    ensures ReadTail(rest) == MicrosOf(Fraction(f, 6), OffsetSeconds(o))
  {
  }

  /** A second of 60, the year 0000 and the lower-case z are in the grammar but not in Python's datetime. */
  predicate Readable(t: Stamp) {
    OnTheClock(t) && !t.offset.LowerZulu?
  }

  predicate OnTheClock(t: Stamp) {
    t.year >= 1 && t.second < 60
  }

  /** Seconds since the epoch, by the clock of Universal Time. */
  function Instant(t: Stamp): int
    requires Rfc3339(t)
  {
    Seconds(t.year, t.month, t.day, t.hour, t.minute, t.second) - OffsetOf(t.offset)
  }

  lemma Parsed(clock: string, rest: string, secs: Option<int>, tail: Option<int>)
    requires |clock| == 19 && ReadClock(clock) == secs && ReadTail(rest) == tail
    ensures FromIso(clock + rest) == if secs.Some? && tail.Some? then Some(Later(secs.value, tail.value)) else None
  {
    var s := clock + rest;
    assert s[..19] == clock && s[19..] == rest;
  }

  lemma FirstSix(digits: string)
    requires AllDigits(digits)
    ensures var f := SixDigits(digits);
            AllDigits(f) && Fraction(f, 6) == Fraction(digits, 6)
  {
    if |digits| > 6 {
      FractionCut(digits, 6, 6);
    }
  }

  lemma TailReadAs(f: string, o: string, offset: Option<int>)
    requires AllDigits(f) && o != "" && !IsDigit(o[0]) && o[0] != '.' && OffsetSeconds(o) == offset
    ensures ReadTail(Tail(f, o)) == MicrosOf(Fraction(f, 6), offset)
  {
    TailRead(f, o);
  }

  /** The end of a stamp as the parser sees it. */
  function CleanTail(t: Stamp): string
    requires Rfc3339(t)
  {
    Tail(SixDigits(t.fraction),
         PlainOffset(t.offset))
  }

  lemma CleanTailRead(t: Stamp)
    requires Rfc3339(t)
    ensures ReadTail(CleanTail(t)) == MicrosOf(Fraction(t.fraction, 6), OffsetRead(t.offset))
  {
    OffsetCleaned(t.offset);
    FirstSix(t.fraction);
    TailReadAs(SixDigits(t.fraction),
               PlainOffset(t.offset), OffsetRead(t.offset));
  }

  function Reading(t: Stamp, secs: int): int {
    Later(secs, Micros(Fraction(t.fraction, 6), OffsetOf(t.offset)))
  }

  /** The parser accepts exactly the readable stamps. */
  lemma ParsedClean(t: Stamp)
    requires Rfc3339(t)
    ensures FromIso(Clock(t) + CleanTail(t)) ==
            if Readable(t) then Some(Reading(t, ClockReading(t).value)) else None
  {
    CleanTailRead(t);
    ClockRead(t);
    Parsed(Clock(t), CleanTail(t), ClockReading(t), MicrosOf(Fraction(t.fraction, 6), OffsetRead(t.offset)));
  }

  lemma ParsedText(t: Stamp)
    requires Rfc3339(t)
    ensures ReadRaw(Some(Text(t))) ==
            if Readable(t) then Some(Reading(t, ClockReading(t).value)) else None
  {
    Cleaned(t);
    ParsedClean(t);
    assert Text(t)[0] == Clock(t)[0];
  }

  lemma {:induction false} FractionCut(digits: string, n: nat, k: nat)
    requires k <= n <= |digits|
    ensures Fraction(digits[..n], k) == Fraction(digits, k)
  {
    if k > 0 {
      FractionCut(digits, n, k - 1);
    }
  }

  /** Three digits more add less than one unit. */
  lemma FractionFloor(digits: string, n: nat)
    requires AllDigits(digits)
    ensures Fraction(digits, n) * 1000 <= Fraction(digits, n + 3) < Fraction(digits, n) * 1000 + 1000
  {
    assert Fraction(digits, n + 1) - 10 * Fraction(digits, n) <= 9;
    assert Fraction(digits, n + 2) - 10 * Fraction(digits, n + 1) <= 9;
    assert Fraction(digits, n + 3) - 10 * Fraction(digits, n + 2) <= 9;
  }

  /**
   * Every RFC 3339 date-time is read as the microsecond floor of its instant, except that a leap second, the year
   * 0000 and a lower-case z are not read at all and count as now.
   */
  lemma CreatedAtIsFloor(t: Stamp, now: Time)
    requires Rfc3339(t)
    ensures ReadRaw(Some(Text(t))).Some? <==> Readable(t)
    ensures CreatedAt(Some(Text(t)), now) == if Readable(t) then Nanos(t) / 1000 else now
  {
    ParsedText(t);
    if Readable(t) {
      FloorOfNanos(t);
    }
  }

  lemma FloorOfNanos(t: Stamp)
    requires Rfc3339(t) && Readable(t)
    ensures Nanos(t) / 1000 == Reading(t, ClockReading(t).value)
  {
    FractionFloor(t.fraction, 6);
    MicroFloor(Instant(t), Fraction(t.fraction, 6), Fraction(t.fraction, 9));
  }

  lemma MicroFloor(secs: int, micros: int, nanos: int)
    requires micros * 1000 <= nanos < micros * 1000 + 1000
    ensures (secs * 1_000_000_000 + nanos) / 1000 == secs * 1_000_000 + micros
  {
    assert secs * 1_000_000_000 + nanos == (secs * 1_000_000 + micros) * 1000 + (nanos - micros * 1000);
  }

  /** Later instants are never read as earlier, and what passes the cutoff is older than the grace less 1 microsecond. */
  lemma SweptStampsAreOld(t: Stamp, u: Stamp, now: Time, grace: nat)
    requires Rfc3339(t) && Rfc3339(u) && Readable(t) && Readable(u)
    ensures Nanos(t) <= Nanos(u) ==> CreatedAt(Some(Text(t)), now) <= CreatedAt(Some(Text(u)), now)
    ensures CreatedAt(Some(Text(t)), now) <= now - grace <==> Nanos(t) < (now - grace + 1) * 1000
  {
    CreatedAtIsFloor(t, now);
    CreatedAtIsFloor(u, now);
  }

  /** Nothing without a readable stamp passes a cutoff in the past. */
  lemma UnreadableIsNeverSwept(raw: Option<string>, now: Time, grace: nat)
    requires ReadRaw(raw).None?
    ensures CreatedAt(raw, now) <= now - grace <==> grace == 0
  {
  }
}
