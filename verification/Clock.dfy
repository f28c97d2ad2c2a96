/** What the reader of creation stamps makes of the clock, told by the texts and the readings alone. */
module Clock {
  import opened Lifecycle
  import opened Timestamps
  import Worlds

  function Micros(secs: int, fraction: int): int {
    secs * 1_000_000 + fraction
  }

  lemma MicrosApart(i: int, j: int, f: int, g: int)
    ensures Micros(j, g) - Micros(i, f) == (j - i) * 1_000_000 + (g - f)
  {
  }

  /** The reading, in microseconds, of a stamp that can be read. */
  function Read(t: Stamp): Time
    requires Rfc3339(t) && Readable(t)
  {
    CreatedAt(Some(Text(t)), 0)
  }

  lemma ReadIsReading(t: Stamp)
    requires Rfc3339(t) && Readable(t)
    ensures ReadRaw(Some(Text(t))) == Some(Read(t))
    ensures Read(t) == Micros(Instant(t), Fraction(t.fraction, 6))
  {
    CreatedAtIsFloor(t, 0);
    FloorOfNanos(t);
    FractionFloor(t.fraction, 6);
    MicroFloor(Instant(t), Fraction(t.fraction, 6), Fraction(t.fraction, 9));
  }

  // ---- The lengths of months -----------------------------------------------

  /** Thirty days hath September, April, June and November; all the rest have 31, but for one. */
  lemma MonthLengths(y: int, m: int)
    requires 1 <= m <= 12
    ensures DaysInMonth(y, m) == 30 <==> m == 9 || m == 4 || m == 6 || m == 11
    ensures DaysInMonth(y, m) == 31 <==> m == 1 || m == 3 || m == 5 || m == 7 || m == 8 || m == 10 || m == 12
    ensures m == 2 ==> DaysInMonth(y, m) == if y % 4 == 0 && (y % 100 != 0 || y % 400 == 0) then 29 else 28
  {
  }

  // ---- Seconds -------------------------------------------------------------

  /** The wall clock one second later: 60 seconds, 60 minutes, 24 hours, and then the next day of the calendar. */
  function NextSecond(t: Stamp): Stamp
    requires Rfc3339(t) && Readable(t)
  {
    if t.second < 59 then t.(second := t.second + 1)
    else if t.minute < 59 then t.(second := 0, minute := t.minute + 1)
    else if t.hour < 23 then t.(second := 0, minute := 0, hour := t.hour + 1)
    else
      var d := NextDay(Date(t.year, t.month, t.day));
      t.(second := 0, minute := 0, hour := 0, year := d.y, month := d.m, day := d.d)
  }

  lemma NextInstant(t: Stamp)
    requires Rfc3339(t) && Readable(t) && NextSecond(t).year < 10000
    ensures Rfc3339(NextSecond(t)) && Readable(NextSecond(t)) && Instant(NextSecond(t)) == Instant(t) + 1
  {
    OrdinalCountsDays(Date(t.year, t.month, t.day));
  }

  /** A stamp one second later is read as exactly one second later, across every carry. */
  lemma NextSecondRead(t: Stamp)
    requires Rfc3339(t) && Readable(t) && NextSecond(t).year < 10000
    ensures Rfc3339(NextSecond(t)) && Readable(NextSecond(t))
    ensures Read(NextSecond(t)) == Read(t) + 1_000_000
  {
    NextInstant(t);
    OneSecondApart(t, NextSecond(t));
  }

  lemma OneSecondApart(t: Stamp, u: Stamp)
    requires Rfc3339(t) && Readable(t) && Rfc3339(u) && Readable(u)
    requires Instant(u) == Instant(t) + 1 && u.fraction == t.fraction
    ensures Read(u) == Read(t) + 1_000_000
  {
    ReadIsReading(t);
    ReadIsReading(u);
    MicrosApart(Instant(t), Instant(u), Fraction(t.fraction, 6), Fraction(t.fraction, 6));
  }

  predicate Epoch(t: Stamp) {
    t == Stamp(1970, 1, 1, 'T', 0, 0, 0, "", Zulu)
  }

  /** And the count starts at the epoch. */
  lemma EpochRead(t: Stamp, text: string)
    requires Epoch(t) && text == "1970-01-01T00:00:00Z"
    ensures Rfc3339(t) && Text(t) == text && ReadRaw(Some(text)) == Some(0)
  {
    EpochText(t);
    EpochInstant(t);
    ReadsZero(t);
  }

  lemma ReadsZero(t: Stamp)
    requires Rfc3339(t) && Readable(t) && Instant(t) == 0 && t.fraction == ""
    ensures ReadRaw(Some(Text(t))) == Some(0)
  {
    ReadIsReading(t);
    NoFraction(6);
  }

  lemma EpochText(t: Stamp)
    requires Epoch(t)
    ensures Rfc3339(t) && Text(t) == "1970-01-01T00:00:00Z"
  {
    January(1970);
    assert Timestamps.Clock(t) == "1970-01-01T00:00:00";
  }

  lemma EpochInstant(t: Stamp)
    requires Epoch(t)
    ensures Rfc3339(t) && Readable(t) && Instant(t) == 0
  {
    January(1970);
    FirstDay(t);
    Midnight(t);
  }

  lemma FirstDay(t: Stamp)
    requires t.year == 1970 && t.month == 1 && t.day == 1
    ensures Ordinal(t.year, t.month, t.day) == EPOCH_ORDINAL
  {
    OrdinalAnchors();
  }

  lemma January(y: int)
    ensures DaysInMonth(y, 1) == 31
  {
  }

  /** Midnight of the first day. */
  lemma Midnight(t: Stamp)
    requires Rfc3339(t) && Ordinal(t.year, t.month, t.day) == EPOCH_ORDINAL && t.offset == Zulu
    requires t.hour == 0 && t.minute == 0 && t.second == 0
    ensures Instant(t) == 0
  {
  }

  // ---- Offsets -------------------------------------------------------------

  /** One minute further from Universal Time. */
  function OneMinuteMore(o: Offset): Offset
    requires o.Ahead? || o.Behind?
  {
    match o
    case Ahead(h, m) => if m < 59 then Ahead(h, m + 1) else Ahead(h + 1, 0)
    case Behind(h, m) => if m < 59 then Behind(h, m + 1) else Behind(h + 1, 0)
  }

  /** The same wall clock further ahead of Universal Time is read as earlier, and further behind as later. */
  lemma OffsetRead60(t: Stamp)
    requires Rfc3339(t) && Readable(t) && (t.offset.Ahead? || t.offset.Behind?) && UnderADay(OneMinuteMore(t.offset))
    ensures var u := t.(offset := OneMinuteMore(t.offset));
            Rfc3339(u) && Readable(u) && Read(u) == Read(t) + if t.offset.Ahead? then -60_000_000 else 60_000_000
  {
    OneMinuteApart(t, t.(offset := OneMinuteMore(t.offset)), if t.offset.Ahead? then -1 else 1);
  }

  lemma OneMinuteApart(t: Stamp, u: Stamp, minutes: int)
    requires Rfc3339(t) && Readable(t) && Rfc3339(u) && Readable(u)
    requires Instant(u) == Instant(t) + 60 * minutes && u.fraction == t.fraction
    ensures Read(u) == Read(t) + 60_000_000 * minutes
  {
    ReadIsReading(t);
    ReadIsReading(u);
    MicrosApart(Instant(t), Instant(u), Fraction(t.fraction, 6), Fraction(t.fraction, 6));
  }

  /** Z, +00:00 and -00:00 are read alike. */
  lemma NoOffset(t: Stamp, o: Offset)
    requires Rfc3339(t) && Readable(t) && t.offset == Zulu && (o == Ahead(0, 0) || o == Behind(0, 0))
    ensures Rfc3339(t.(offset := o)) && Readable(t.(offset := o)) && Read(t.(offset := o)) == Read(t)
  {
    Alike(t, o);
  }

  lemma Alike(t: Stamp, o: Offset)
    requires Rfc3339(t) && Readable(t) && UnderADay(o) && !o.LowerZulu? && OffsetOf(o) == OffsetOf(t.offset)
    ensures Rfc3339(t.(offset := o)) && Readable(t.(offset := o)) && Read(t.(offset := o)) == Read(t)
  {
    SameReading(t, t.(offset := o));
  }

  lemma SameReading(t: Stamp, u: Stamp)
    requires Rfc3339(t) && Readable(t) && Rfc3339(u) && Readable(u)
    requires Instant(u) == Instant(t) && Fraction(u.fraction, 6) == Fraction(t.fraction, 6)
    ensures Read(u) == Read(t)
  {
    ReadIsReading(t);
    ReadIsReading(u);
  }

  // ---- Fractions -----------------------------------------------------------

  function Power10(n: nat): nat {
    if n == 0 then 1 else 10 * Power10(n - 1)
  }

  lemma {:induction false} DigitInFraction(f: string, j: nat, c: char, shift: int, n: nat)
    requires j < |f| && shift == Val(c) - Val(f[j])
    ensures Fraction(f[j := c], n) - Fraction(f, n) == if j < n then Worth(shift, n - 1 - j) else 0
  {
    if n > 0 {
      DigitInFraction(f, j, c, shift, n - 1);
      if j < n - 1 {
        assert Power10(n - 1 - j) == 10 * Power10(n - 2 - j);
        Tenfold(shift, Power10(n - 2 - j));
      }
    }
  }

  function Worth(digit: int, place: nat): int {
    digit * Power10(place)
  }

  lemma Tenfold(a: int, p: nat)
    ensures 10 * (a * p) == a * (10 * p)
  {
  }

  /** The first six digits count tenths, hundredths and so on down to microseconds; digits after them do not count. */
  lemma DigitRead(t: Stamp, j: nat, a: nat, b: nat)
    requires Rfc3339(t) && Readable(t) && j < |t.fraction| && a < 10 && b < 10 && t.fraction[j] == Digit(a)
    ensures var u := t.(fraction := t.fraction[j := Digit(b)]);
            Rfc3339(u) && Readable(u) && Read(u) - Read(t) == if j < 6 then Worth(b - a, 5 - j) else 0
  {
    var u := t.(fraction := t.fraction[j := Digit(b)]);
    DigitInFraction(t.fraction, j, Digit(b), b - a, 6);
    FractionsApart(t, u);
  }

  lemma FractionsApart(t: Stamp, u: Stamp)
    requires Rfc3339(t) && Readable(t) && u == t.(fraction := u.fraction) && Rfc3339(u)
    ensures Readable(u) && Read(u) - Read(t) == Fraction(u.fraction, 6) - Fraction(t.fraction, 6)
  {
    ReadIsReading(t);
    ReadIsReading(u);
    MicrosApart(Instant(t), Instant(u), Fraction(t.fraction, 6), Fraction(u.fraction, 6));
  }

  lemma {:induction false} ZeroAppended(f: string, n: nat)
    ensures Fraction(f + "0", n) == Fraction(f, n)
  {
    if n > 0 {
      ZeroAppended(f, n - 1);
      assert Val('0') == 0;
      assert n <= |f| ==> (f + "0")[n - 1] == f[n - 1];
    }
  }

  /** A fraction of zeros is no fraction, and zeros after a fraction change nothing. */
  lemma ZeroRead(t: Stamp)
    requires Rfc3339(t) && Readable(t)
    ensures var u := t.(fraction := t.fraction + "0");
            Rfc3339(u) && Readable(u) && Read(u) == Read(t)
  {
    ZeroAppended(t.fraction, 6);
    FractionsApart(t, t.(fraction := t.fraction + "0"));
  }

  // ---- What is not read ----------------------------------------------------

  /** A listing takes a resource by the reading of its stamp. */
  lemma FoundByText(tag: Worlds.Label, raw: Option<string>, now: Time, cutoff: Time)
    ensures Worlds.Found(Some(tag), ReadRaw(raw), now, cutoff) <==> CreatedAt(raw, now) <= cutoff
  {
  }

  /** No stamp, and an empty one, count as now. */
  lemma MissingIsNow(now: Time)
    ensures CreatedAt(None, now) == now && CreatedAt(Some(""), now) == now
  {
  }

  /** A date of the calendar and a time of day, in their places, from the year 1 on. */
  predicate SpellsAMoment(s: string)
    requires |s| == 19
  {
    && s[4] == s[7] == '-' && s[13] == s[16] == ':'
    && (forall i :: 0 <= i < 19 && i !in {4, 7, 10, 13, 16} ==> '0' <= s[i] <= '9')
    && (var year := 1000 * Val(s[0]) + 100 * Val(s[1]) + 10 * Val(s[2]) + Val(s[3]);
        var month, day := 10 * Val(s[5]) + Val(s[6]), 10 * Val(s[8]) + Val(s[9]);
        year >= 1 && 1 <= month <= 12 && 1 <= day <= DaysInMonth(year, month))
    && 10 * Val(s[11]) + Val(s[12]) < 24 && 10 * Val(s[14]) + Val(s[15]) < 60 && 10 * Val(s[17]) + Val(s[18]) < 60
  }

  /** Nothing else is read. */
  lemma ReadOnlyLegal(s: string)
    requires FromIso(s).Some?
    ensures |s| >= 19 && SpellsAMoment(s[..19])
  {
    LegalClock(s[..19]);
  }

  lemma LegalClock(s: string)
    requires |s| == 19 && ReadClock(s).Some?
    ensures SpellsAMoment(s)
  {
  }

  /** An offset is read only as a sign and hours and minutes under a day, or not there at all. */
  lemma OffsetOnlyLegal(s: string)
    requires OffsetSeconds(s).Some? && s != ""
    ensures |s| == 6 && (s[0] == '+' || s[0] == '-') && s[3] == ':'
    ensures forall i :: i in {1, 2, 4, 5} ==> '0' <= s[i] <= '9'
    ensures 60 * (10 * Val(s[1]) + Val(s[2])) + 10 * Val(s[4]) + Val(s[5]) < 1440
  {
  }
}
