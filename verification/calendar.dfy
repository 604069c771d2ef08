/**
 Proleptic Gregorian calendar arithmetic on absolute day numbers.

 A local calendar day is an integer: the number of days since 1970-01-01,
 negative before it. The weekday uses JavaScript's `Date.getDay` numbering
 (0 = Sunday … 6 = Saturday); civil dates use a 1-based month, and
 `JsMonth` gives the 0-based month that `Date.getMonth` reports.
 */
module Calendar {

  /** 1970-01-01 was a Thursday. */
  const EpochWeekday: int := 4

  /** Days between 0000-03-01 and 1970-01-01. */
  const EpochShift: int := 719468

  /** Days in one 400-year Gregorian cycle. */
  const DaysPerEra: int := 146097

  datatype Civil = Civil(year: int, month: int, day: int)

  /** The weekday of day `d`, as `Date.getDay` numbers it (0 = Sunday). */
  function Weekday(d: int): (w: int)
    ensures 0 <= w < 7
  {
    (d + EpochWeekday) % 7
  }

  /** Names of the weekdays in the order of `Date.getDay`: Sunday first. */
  const WeekdayNames: seq<string> :=
    ["Sunday", "Monday", "Tuesday", "Wednesday", "Thursday", "Friday", "Saturday"]

  /** The name of the weekday of day `d`, looked up in the Sunday-first table. */
  function WeekdayName(d: int): (name: string)
    ensures name in WeekdayNames
    ensures name == "Sunday" <==> Weekday(d) == 0
    ensures name == "Monday" <==> Weekday(d) == 1
    ensures name == "Saturday" <==> Weekday(d) == 6
  {
    WeekdayNames[Weekday(d)]
  }

  /** Position of a day within its 400-year era, and that era. */
  function EraOf(d: int): (r: (int, int))
    ensures 0 <= r.1 < DaysPerEra
    ensures d + EpochShift == r.0 * DaysPerEra + r.1
  {
    var z := d + EpochShift;
    (z / DaysPerEra, z % DaysPerEra)
  }

  /** Days of an era that lie before the start of its `yoe`-th March-based year. */
  function DaysBeforeYearOfEra(yoe: int): int
  {
    365 * yoe + yoe / 4 - yoe / 100
  }

  /** Days of a March-based year that lie before the start of its `mp`-th month (0 = March). */
  function DaysBeforeMonth(mp: int): int
  {
    (153 * mp + 2) / 5
  }

  /** Index of the March-based month (0 = March … 11 = February) that holds day-of-year `doy`. */
  function MonthOfYear(doy: int): int
  {
    (5 * doy + 2) / 153
  }

  /**
   Splits the `doe`-th day of an era (counted from March 1 of its first year)
   into the year of the era and the day of that March-based year: whole
   centuries of 36524 days, then whole four-year cycles of 1461 days, then
   whole years of 365 days. The last century, cycle and year of each group are
   one day longer, which is why the counts of centuries and years are capped.
   */
  function SplitEraDay(doe: int): (r: (int, int))
    requires 0 <= doe < DaysPerEra
    ensures 0 <= r.0 < 400
    ensures 0 <= r.1 < 366
    ensures doe == DaysBeforeYearOfEra(r.0) + r.1
  {
    var c := if doe / 36524 < 4 then doe / 36524 else 3;
    var e := doe - 36524 * c;
    var q := e / 1461;
    var p := e % 1461;
    var a := if p / 365 < 4 then p / 365 else 3;
    var yoe := 100 * c + 4 * q + a;
    assert 0 <= q <= 24;
    assert yoe / 4 == 25 * c + q;
    assert yoe / 100 == c;
    (yoe, p - 365 * a)
  }

  lemma MonthOfYearBounds(doy: int)
    requires 0 <= doy < 366
    ensures 0 <= MonthOfYear(doy) < 12
    ensures 0 <= doy - DaysBeforeMonth(MonthOfYear(doy)) < 31
  {
  }

  /** The civil date of day `d` (the inverse of `DaysFromCivil`). */
  function CivilFromDays(d: int): (c: Civil)
    ensures 1 <= c.month <= 12
    ensures 1 <= c.day <= 31
  {
    var (era, doe) := EraOf(d);
    var (yoe, doy) := SplitEraDay(doe);
    MonthOfYearBounds(doy);
    var mp := MonthOfYear(doy);
    var day := doy - DaysBeforeMonth(mp) + 1;
    var month := if mp < 10 then mp + 3 else mp - 9;
    var year := yoe + era * 400;
    Civil(if month <= 2 then year + 1 else year, month, day)
  }

  /** The day number of a civil date, counting days of whole eras, years and months. */
  function DaysFromCivil(c: Civil): int
  {
    var y := if c.month <= 2 then c.year - 1 else c.year;
    var era := y / 400;
    var yoe := y - era * 400;
    var mp := if c.month > 2 then c.month - 3 else c.month + 9;
    var doy := DaysBeforeMonth(mp) + c.day - 1;
    era * DaysPerEra + DaysBeforeYearOfEra(yoe) + doy - EpochShift
  }

  /** Counting the days of the computed civil date gives back the day number. */
  lemma DaysFromCivilInverse(d: int)
    ensures DaysFromCivil(CivilFromDays(d)) == d
  {
    var (era, doe) := EraOf(d);
    var (yoe, doy) := SplitEraDay(doe);
    MonthOfYearBounds(doy);
    var c := CivilFromDays(d);
    var y := if c.month <= 2 then c.year - 1 else c.year;
    assert y == yoe + era * 400;
    assert y / 400 == era;
  }

  /** Different day numbers never share a civil date. */
  lemma CivilFromDaysInjective(d1: int, d2: int)
    ensures CivilFromDays(d1) == CivilFromDays(d2) <==> d1 == d2
  {
    DaysFromCivilInverse(d1);
    DaysFromCivilInverse(d2);
  }

  /** The 0-based month `Date.getMonth` reports for a civil date. */
  function JsMonth(c: Civil): (m: int)
    requires 1 <= c.month <= 12
    ensures 0 <= m < 12
    ensures m + 1 == c.month
  {
    c.month - 1
  }

  /** 1970-01-01 is day 0 and a Thursday. */
  lemma EpochIsThursday()
    ensures CivilFromDays(0) == Civil(1970, 1, 1)
    ensures WeekdayName(0) == "Thursday"
  {
    assert EraOf(0) == (4, 135080);
    assert SplitEraDay(135080) == (369, 306);
    assert MonthOfYear(306) == 10;
  }

  /** 2026-10-05 is day 20731 and a Monday. */
  lemma MondayFifthOfOctober2026()
    ensures CivilFromDays(20731) == Civil(2026, 10, 5)
    ensures WeekdayName(20731) == "Monday"
  {
    assert EraOf(20731) == (5, 9714);
    assert SplitEraDay(9714) == (26, 218);
    assert MonthOfYear(218) == 7;
  }
}
