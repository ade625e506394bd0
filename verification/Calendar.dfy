/** Civil dates and the day arithmetic behind "days before service". */
module Calendar {

  datatype CivilDate = CivilDate(year: int, month: int, day: int)

  predicate IsLeap(y: int) {
    y % 4 == 0 && (y % 100 != 0 || y % 400 == 0)
  }

  function DaysInMonth(y: int, m: int): (n: int)
    requires 1 <= m <= 12
    ensures 28 <= n <= 31
  {
    if m == 2 then (if IsLeap(y) then 29 else 28)
    else if m == 4 || m == 6 || m == 9 || m == 11 then 30
    else 31
  }

  /** A date of the Gregorian calendar printed with a four-digit year. */
  predicate Valid(d: CivilDate) {
    1000 <= d.year && 1 <= d.month <= 12 && 1 <= d.day <= DaysInMonth(d.year, d.month)
  }

  /** DayFromYear of section 15.9.1.3 of ECMA-262 edition 5.1; Dafny's division is the floor for a positive divisor. */
  function DayFromYear(y: int): int {
    365 * (y - 1970) + (y - 1969) / 4 - (y - 1901) / 100 + (y - 1601) / 400
  }

  /** Days of the year before the month begins (section 15.9.1.4). */
  function DaysBeforeMonth(y: int, m: int): int
    requires 1 <= m <= 12
  {
    [0, 31, 59, 90, 120, 151, 181, 212, 243, 273, 304, 334][m - 1] + (if m > 2 && IsLeap(y) then 1 else 0)
  }

  /** MakeDay of section 15.9.1.12. */
  function DayNumber(d: CivilDate): int
    requires Valid(d)
  {
    DayFromYear(d.year) + DaysBeforeMonth(d.year, d.month) + d.day - 1
  }

  const MS_PER_DAY := 86400000

  /** Date.UTC of a parsed date, in milliseconds. */
  function UtcMillis(d: CivilDate): int
    requires Valid(d)
  {
    DayNumber(d) * MS_PER_DAY
  }

  /** Math.round: the nearest integer, halves upwards. */
  function MathRound(x: real): int {
    (x + 0.5).Floor
  }

  function DateDifference(later: CivilDate, earlier: CivilDate): int
    requires Valid(later) && Valid(earlier)
  {
    MathRound((UtcMillis(later) - UtcMillis(earlier)) as real / MS_PER_DAY as real)
  }

  /** The quotient is exact, so rounding never moves it. */
  lemma DifferenceIsExact(later: CivilDate, earlier: CivilDate)
    requires Valid(later) && Valid(earlier)
    ensures DateDifference(later, earlier) == DayNumber(later) - DayNumber(earlier)
    ensures (UtcMillis(later) - UtcMillis(earlier)) % MS_PER_DAY == 0
  {
    WholeDays(DayNumber(later) - DayNumber(earlier));
  }

  /** A whole number of days in milliseconds divides back exactly. */
  lemma WholeDays(n: int)
    ensures MathRound((n * MS_PER_DAY) as real / MS_PER_DAY as real) == n
    ensures (n * MS_PER_DAY) % MS_PER_DAY == 0
  {
    var x := n as real;
    assert (n * 86400000) as real == x * 86400000.0;
    assert x * 86400000.0 / 86400000.0 == x;
  }

  // ---------- the calendar as one turns its pages ----------

  /** The next page of the calendar, said without any day count. */
  function NextDay(d: CivilDate): (n: CivilDate)
    requires Valid(d)
    ensures Valid(n)
  {
    if d.day < DaysInMonth(d.year, d.month) then d.(day := d.day + 1)
    else if d.month < 12 then CivilDate(d.year, d.month + 1, 1)
    else CivilDate(d.year + 1, 1, 1)
  }

  function Advance(d: CivilDate, n: nat): (r: CivilDate)
    requires Valid(d)
    ensures Valid(r)
    decreases n
  {
    if n == 0 then d else NextDay(Advance(d, n - 1))
  }

  predicate Before(a: CivilDate, b: CivilDate) {
    a.year < b.year || (a.year == b.year && (a.month < b.month || (a.month == b.month && a.day < b.day)))
  }

  lemma YearLength(y: int)
    ensures DayFromYear(y + 1) == DayFromYear(y) + (if IsLeap(y) then 366 else 365)
  {
    FourYears(y);
    Centuries(y);
    FourCenturies(y);
    LeapDays(y);
  }

  lemma FourYears(y: int)
    ensures (y - 1968) / 4 - (y - 1969) / 4 == if y % 4 == 0 then 1 else 0
  {
  }

  lemma Centuries(y: int)
    ensures (y - 1900) / 100 - (y - 1901) / 100 == if y % 100 == 0 then 1 else 0
  {
  }

  lemma FourCenturies(y: int)
    ensures (y - 1600) / 400 - (y - 1601) / 400 == if y % 400 == 0 then 1 else 0
  {
  }

  /** Every fourth year is leap but for the centuries, and every fourth of those is leap again. */
  lemma LeapDays(y: int)
    ensures (if IsLeap(y) then 1 else 0)
            == (if y % 4 == 0 then 1 else 0) - (if y % 100 == 0 then 1 else 0) + (if y % 400 == 0 then 1 else 0)
  {
    assert y % 100 == 0 ==> y % 4 == 0 by { if y % 100 == 0 { assert y == 4 * (25 * (y / 100)); } }
    assert y % 400 == 0 ==> y % 100 == 0 by { if y % 400 == 0 { assert y == 100 * (4 * (y / 400)); } }
  }

  lemma NextDayNumber(d: CivilDate)
    requires Valid(d)
    ensures DayNumber(NextDay(d)) == DayNumber(d) + 1
  {
    YearLength(d.year);
  }

  lemma {:induction false} YearsGrow(y: int, z: int)
    requires y <= z
    ensures DayFromYear(y) + 365 * (z - y) <= DayFromYear(z)
    decreases z - y
  {
    if y < z {
      YearLength(y);
      YearsGrow(y + 1, z);
    }
  }

  lemma DayNumberInYear(d: CivilDate)
    requires Valid(d)
    ensures DayFromYear(d.year) <= DayNumber(d) < DayFromYear(d.year + 1)
  {
    YearLength(d.year);
  }

  lemma NumberIsMonotone(a: CivilDate, b: CivilDate)
    requires Valid(a) && Valid(b) && Before(a, b)
    ensures DayNumber(a) < DayNumber(b)
  {
    if a.year < b.year {
      DayNumberInYear(a);
      DayNumberInYear(b);
      YearsGrow(a.year + 1, b.year);
    }
  }

  /** Strictly monotone, hence also injective: the sign of the difference is the order of the dates. */
  lemma DifferenceOrdersDates(a: CivilDate, b: CivilDate)
    requires Valid(a) && Valid(b)
    ensures DateDifference(b, a) > 0 <==> Before(a, b)
    ensures DateDifference(b, a) == 0 <==> a == b
  {
    DifferenceIsExact(b, a);
    if Before(a, b) {
      NumberIsMonotone(a, b);
    } else if Before(b, a) {
      NumberIsMonotone(b, a);
    } else {
      assert a == b;
    }
  }

  lemma {:induction false} AdvanceCounts(d: CivilDate, n: nat)
    requires Valid(d)
    ensures DayNumber(Advance(d, n)) == DayNumber(d) + n
    decreases n
  {
    if n > 0 {
      AdvanceCounts(d, n - 1);
      NextDayNumber(Advance(d, n - 1));
    }
  }

  /** The difference is the true number of days: turning n pages from the earlier date reaches the later one
      exactly when the difference is n. */
  lemma DifferenceCountsPages(later: CivilDate, earlier: CivilDate, n: nat)
    requires Valid(later) && Valid(earlier)
    ensures DateDifference(later, earlier) == n <==> Advance(earlier, n) == later
  {
    DifferenceIsExact(later, earlier);
    AdvanceCounts(earlier, n);
    var reached := Advance(earlier, n);
    DifferenceOrdersDates(reached, later);
    DifferenceIsExact(later, reached);
  }

  lemma DifferenceIsAdditive(a: CivilDate, b: CivilDate, c: CivilDate)
    requires Valid(a) && Valid(b) && Valid(c)
    ensures DateDifference(c, a) == DateDifference(c, b) + DateDifference(b, a)
    ensures DateDifference(b, a) == -DateDifference(a, b)
  {
    DifferenceIsExact(c, a);
    DifferenceIsExact(c, b);
    DifferenceIsExact(b, a);
    DifferenceIsExact(a, b);
  }
}
