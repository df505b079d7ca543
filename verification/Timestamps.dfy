/** Conversion between dates (seconds from the reference date, 2001) and timestamps
    (whole seconds and nanoseconds from the epoch, 1970), with intervals as exact
    reals. */
module Timestamps {

  datatype Date = NoDate | NotANumber | Infinite(positive: bool) | At(interval: real)

  datatype Timestamp = NoTimestamp | Timestamp(seconds: int, nanoseconds: int)

  const MAX_INT64: int := 0x7FFF_FFFF_FFFF_FFFF
  const MIN_INT64: int := -0x8000_0000_0000_0000
  const SINCE_1970: int := 978307200
  const SECOND: int := 1_000_000_000

  const LATEST := Timestamp(MAX_INT64, SECOND - 1)
  const EARLIEST := Timestamp(MIN_INT64, -SECOND + 1)

  // ---------- timestamps as numbers of nanoseconds ----------

  /** What the timestamp's constructor insists on. */
  predicate SameSigns(s: int, n: int) {
    -SECOND < n < SECOND && ((s >= 0 && n >= 0) || (s <= 0 && n <= 0))
  }

  predicate Valid(ts: Timestamp) {
    ts.Timestamp? && SameSigns(ts.seconds, ts.nanoseconds) && MIN_INT64 <= ts.seconds <= MAX_INT64
  }

  function Total(ts: Timestamp): int
    requires ts.Timestamp?
  {
    ts.seconds * SECOND + ts.nanoseconds
  }

  /** Division and remainder rounding toward zero. */
  function Split(total: int): (ts: Timestamp)
    ensures ts.Timestamp? && SameSigns(ts.seconds, ts.nanoseconds) && Total(ts) == total
  {
    if total >= 0 then Timestamp(total / SECOND, total % SECOND)
    else Timestamp(-((-total) / SECOND), -((-total) % SECOND))
  }

  lemma {:induction false} SplitUnique(a: Timestamp, b: Timestamp)
    requires a.Timestamp? && b.Timestamp? && Total(a) == Total(b)
    requires SameSigns(a.seconds, a.nanoseconds) && SameSigns(b.seconds, b.nanoseconds)
    ensures a == b
  {
  }

  /** The order of the timestamp class: seconds first, then nanoseconds. */
  predicate AtMost(a: Timestamp, b: Timestamp) {
    a.Timestamp? && b.Timestamp?
    && (a.seconds < b.seconds || (a.seconds == b.seconds && a.nanoseconds <= b.nanoseconds))
  }

  lemma {:induction false} OrderIsTotals(a: Timestamp, b: Timestamp)
    requires a.Timestamp? && SameSigns(a.seconds, a.nanoseconds)
    requires b.Timestamp? && SameSigns(b.seconds, b.nanoseconds)
    ensures AtMost(a, b) <==> Total(a) <= Total(b)
  {
  }

  // ---------- rounding ----------

  /** A cast from floating point to integer: toward zero. */
  function Trunc(x: real): int {
    if x >= 0.0 then x.Floor else -((-x).Floor)
  }

  // ---------- the conversions ----------

  /** The interval lies where the conversion does not clamp. */
  predicate Unclamped(t: real) {
    t < MAX_INT64 as real - SINCE_1970 as real && t - SINCE_1970 as real >= MIN_INT64 as real
  }

  /** What the conversion should give: the interval in nanoseconds, rounded toward the
      reference date, counted from the epoch. */
  function Expected(d: Date): Timestamp {
    match d
    case NoDate => NoTimestamp
    case NotANumber => Timestamp(0, 0)
    case Infinite(positive) => if positive then LATEST else EARLIEST
    case At(t) =>
      if Unclamped(t) then Split(Trunc(t * SECOND as real) + SINCE_1970 * SECOND)
      else if t > 0.0 then LATEST else EARLIEST
  }

  /** `RLMTimestampForNSDate`. */
  method TimestampForDate(date: Date) returns (ts: Timestamp)
    ensures ts == Expected(date)
    ensures date != NoDate ==> Valid(ts)
  {
    hide Trunc, Split;
    if date.NoDate? {
      return NoTimestamp;
    }
    if date.NotANumber? {
      return Timestamp(0, 0);
    }
    if date.Infinite? {
      // Beyond every bound, so one of the two clamps applies.
      return if date.positive then LATEST else EARLIEST;
    }
    var interval := date.interval;
    if interval >= MAX_INT64 as real - SINCE_1970 as real {
      return LATEST;
    }
    if interval - SINCE_1970 as real < MIN_INT64 as real {
      return EARLIEST;
    }
    var seconds := Trunc(interval);
    var nanoseconds := Trunc((interval - seconds as real) * SECOND as real);
    InRange(interval);
    Assembled(interval);
    // No conversion or sum leaves the range of its integer type.
    assert MIN_INT64 <= seconds <= MAX_INT64 && MIN_INT64 <= seconds + SINCE_1970 <= MAX_INT64;
    assert -SECOND < nanoseconds < SECOND;
    seconds := seconds + SINCE_1970;
    if nanoseconds < 0 && seconds > 0 {
      nanoseconds := nanoseconds + SECOND;
      seconds := seconds - 1;
    }
    ts := Timestamp(seconds, nanoseconds);
  }

  /** Whole seconds and the rest, with the borrow, are the split of the total. */
  lemma {:induction false} Assembled(t: real)
    requires Unclamped(t)
    ensures var s := Trunc(t); var n := Trunc((t - s as real) * SECOND as real);
      var ts := if n < 0 && s + SINCE_1970 > 0 then Timestamp(s + SINCE_1970 - 1, n + SECOND) else Timestamp(s + SINCE_1970, n);
      ts == Split(Trunc(t * SECOND as real) + SINCE_1970 * SECOND) && Valid(ts)
  {
    hide Trunc, Split;
    InRange(t);
    var s := Trunc(t);
    var n := Trunc((t - s as real) * SECOND as real);
    var ts := if n < 0 && s + SINCE_1970 > 0 then Timestamp(s + SINCE_1970 - 1, n + SECOND) else Timestamp(s + SINCE_1970, n);
    SplitUnique(ts, Split(s * SECOND + n + SINCE_1970 * SECOND));
  }

  lemma {:induction false} InRange(t: real)
    requires Unclamped(t)
    ensures var s := Trunc(t); var n := Trunc((t - s as real) * SECOND as real);
      && MIN_INT64 <= s && s + SINCE_1970 <= MAX_INT64
      && -SECOND < n < SECOND && (t >= 0.0 ==> s >= 0 && n >= 0) && (t <= 0.0 ==> s <= 0 && n <= 0)
      && Trunc(t * SECOND as real) == s * SECOND + n
  {
  }

  /** `RLMTimestampToNSDate`. */
  function DateOf(ts: Timestamp): Date {
    match ts
    case NoTimestamp => NoDate
    case Timestamp(s, n) => At(s as real - SINCE_1970 as real + n as real / SECOND as real)
  }

  // ---------- the calendar ----------

  predicate LeapYear(year: int) {
    year % 4 == 0 && (year % 100 != 0 || year % 400 == 0)
  }

  /** The days from the start of one year to the start of another. */
  function DaysFrom(year: int, end: int): int
    decreases end - year
  {
    if year >= end then 0 else (if LeapYear(year) then 366 else 365) + DaysFrom(year + 1, end)
  }

  lemma {:induction false} EveryFourthYear(year: int)
    requires 1900 < year < 2100
    ensures LeapYear(year) <==> year % 4 == 0
  {
    assert year % 100 == 0 ==> year == 2000;
  }

  lemma {:induction false} DaysCounted(year: int)
    requires 1970 <= year <= 2001
    ensures DaysFrom(year, 2001) == 365 * (2001 - year) + (2004 - year) / 4
    decreases 2001 - year
  {
    hide LeapYear;
    if year < 2001 {
      EveryFourthYear(year);
      DaysCounted(year + 1);
    }
  }

  // ---------- what is promised ----------

  /** The epoch is the start of 1970 and the reference date that of 2001. */
  lemma {:induction false} ReferenceDate()
    ensures SINCE_1970 == DaysFrom(1970, 2001) * 24 * 60 * 60
    ensures Expected(At(0.0)) == Timestamp(DaysFrom(1970, 2001) * 24 * 60 * 60, 0)
    ensures DateOf(Timestamp(0, 0)) == At(-(DaysFrom(1970, 2001) * 24 * 60 * 60) as real)
  {
    hide DaysFrom;
    DaysCounted(1970);
    assert Trunc(0.0) == 0;
  }

  /** The instants between the bounds are counted in nanoseconds from 1970; beyond them
      the conversion gives the first or the last instant of 64-bit seconds, and the
      epoch for what is not a number. */
  lemma {:induction false} Converted(d: Date)
    ensures d.NoDate? <==> Expected(d) == NoTimestamp
    ensures d.NotANumber? ==> Expected(d) == Timestamp(0, 0)
    ensures d.Infinite? ==>
      Expected(d) == if d.positive then Timestamp(9_223_372_036_854_775_807, 999_999_999)
                     else Timestamp(-9_223_372_036_854_775_808, -999_999_999)
    ensures d.At? && d.interval >= 9_223_372_036_854_775_807.0 - 978_307_200.0 ==> Expected(d) == Expected(Infinite(true))
    ensures d.At? && d.interval < -9_223_372_036_854_775_808.0 + 978_307_200.0 ==> Expected(d) == Expected(Infinite(false))
    ensures d.At? && -9_223_372_036_854_775_808.0 + 978_307_200.0 <= d.interval < 9_223_372_036_854_775_807.0 - 978_307_200.0 ==>
      Total(Expected(d)) == Trunc(d.interval * 1_000_000_000.0) + DaysFrom(1970, 2001) * 24 * 60 * 60 * 1_000_000_000
  {
    ReferenceDate();
  }

  predicate Earlier(a: Date, b: Date) {
    match (a, b)
    case (At(x), At(y)) => x <= y
    case (Infinite(p), Infinite(q)) => !p || q
    case (At(_), Infinite(q)) => q
    case (Infinite(p), At(_)) => !p
    case _ => false
  }

  /** Later dates never give earlier timestamps, across both clamps. */
  lemma {:induction false} Monotone(a: Date, b: Date)
    requires Earlier(a, b)
    ensures AtMost(Expected(a), Expected(b))
  {
  }

  lemma {:induction false} Between(t: real)
    ensures AtMost(EARLIEST, Expected(At(t))) && AtMost(Expected(At(t)), LATEST)
  {
  }

  /** A date comes back rounded toward the reference date by less than a nanosecond. */
  lemma {:induction false} DateRoundTrip(t: real)
    requires Unclamped(t)
    ensures var back := DateOf(Expected(At(t))).interval;
      && (if t >= 0.0 then 0.0 <= back <= t else t <= back <= 0.0)
      && -1.0 < (t - back) * SECOND as real < 1.0
  {
  }

  /** The timestamps that do not survive: the last whole second but for its end, and
      those closer than twice the epoch offset to the earliest second, but for the
      earliest timestamp. The lower bound subtracts the offset where it would have
      to add it, so it is this much too high. */
  predicate Lost(ts: Timestamp)
    requires ts.Timestamp?
  {
    (Total(ts) >= MAX_INT64 * SECOND && ts != LATEST)
    || (Total(ts) < (MIN_INT64 + 2 * SINCE_1970) * SECOND && ts != EARLIEST)
  }

  /** A valid timestamp comes back from a date unchanged exactly when it is not one of
      those. */
  lemma {:induction false} TimestampRoundTripIff(ts: Timestamp)
    requires Valid(ts)
    ensures Expected(DateOf(ts)) == ts <==> !Lost(ts)
  {
  }

  /** A valid timestamp that is moved to the earliest one, by almost two epoch offsets. */
  lemma {:induction false} LostNearTheBottom()
    ensures var ts := Timestamp(MIN_INT64 + 2 * SINCE_1970 - 1, 0);
      Valid(ts) && Expected(DateOf(ts)) == EARLIEST
  {
  }
}
