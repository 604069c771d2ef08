/**
 The week key: a string naming the Monday-starting week that holds "today",
 used to tell whether the stored plan belongs to the current week.
 */
module WeekKey {
  import opened Calendar
  import opened Text

  /** `(day === 0 ? -6 : 1) - day`: days from a weekday back to the Monday of its week. */
  function MondayOffset(weekday: int): (diff: int)
    requires 0 <= weekday < 7
    ensures -6 <= diff <= 0
    ensures diff == 0 <==> weekday == 1
    ensures (weekday + diff + 7) % 7 == 1
  {
    (if weekday == 0 then -6 else 1) - weekday
  }

  /** The Monday of the week of day `now` (`monday.setDate(now.getDate() + diff)`). */
  function MondayOf(now: int): (monday: int)
    ensures now - 6 <= monday <= now
    ensures Weekday(monday) == 1
    ensures WeekdayName(monday) == "Monday"
  {
    now + MondayOffset(Weekday(now))
  }

  /**
   Reference numbering of Monday-starting weeks, independent of weekday
   arithmetic: week 0 runs from Monday 1970-01-05 (day 4) to Sunday 1970-01-11.
   */
  function WeekIndex(d: int): int
  {
    (d - 4) / 7
  }

  /** The Monday found from any day is the first day of that day's week. */
  lemma MondayStartsWeek(d: int)
    ensures MondayOf(d) == 4 + 7 * WeekIndex(d)
    ensures WeekIndex(MondayOf(d)) == WeekIndex(d)
  {
  }

  /** `week-${year}-${month}-${day}` with the 0-based month of `Date.getMonth`. */
  function Format(c: Civil): (key: string)
    requires 1 <= c.month <= 12
    ensures StartsWith(key, "week-")
    ensures |IntToDecimal(c.day)| < |key| && key[|key| - |IntToDecimal(c.day)|..] == IntToDecimal(c.day)
  {
    "week-" + IntToDecimal(c.year) + "-" + IntToDecimal(JsMonth(c)) + "-" + IntToDecimal(c.day)
  }

  /** `getWeekKey()` evaluated on day `now`. */
  function CurrentWeekKey(now: int): (key: string)
    ensures StartsWith(key, "week-")
  {
    Format(CivilFromDays(MondayOf(now)))
  }

  lemma NonNegativeHasNoMinus(i: int)
    requires i >= 0
    ensures '-' !in IntToDecimal(i)
  {
    var s := IntToDecimal(i);
    assert s == [s[0]] + s[1..];
  }

  /** Two week keys are equal exactly when they name the same civil date. */
  lemma FormatInjective(c1: Civil, c2: Civil)
    requires 1 <= c1.month <= 12 && 1 <= c2.month <= 12
    requires c1.day >= 0 && c2.day >= 0
    ensures Format(c1) == Format(c2) <==> c1 == c2
  {
    if Format(c1) == Format(c2) {
      var y1, m1, d1 := IntToDecimal(c1.year), IntToDecimal(JsMonth(c1)), IntToDecimal(c1.day);
      var y2, m2, d2 := IntToDecimal(c2.year), IntToDecimal(JsMonth(c2)), IntToDecimal(c2.day);
      NonNegativeHasNoMinus(c1.day);
      NonNegativeHasNoMinus(c2.day);
      NonNegativeHasNoMinus(JsMonth(c1));
      NonNegativeHasNoMinus(JsMonth(c2));
      assert Format(c1) == ("week-" + y1 + "-" + m1) + ['-'] + d1;
      assert Format(c2) == ("week-" + y2 + "-" + m2) + ['-'] + d2;
      SplitAtLastUnique("week-" + y1 + "-" + m1, d1, "week-" + y2 + "-" + m2, d2, '-');
      SplitAtLastUnique("week-" + y1, m1, "week-" + y2, m2, '-');
      assert y1 == ("week-" + y1)[5..] == ("week-" + y2)[5..] == y2;
      IntToDecimalInjective(c1.year, c2.year);
      IntToDecimalInjective(JsMonth(c1), JsMonth(c2));
      IntToDecimalInjective(c1.day, c2.day);
    }
  }

  /**
   All days of one Monday-starting week share a key, and days of different
   weeks (adjacent ones included) never do.
   */
  lemma SameKeyIffSameWeek(d1: int, d2: int)
    ensures CurrentWeekKey(d1) == CurrentWeekKey(d2) <==> WeekIndex(d1) == WeekIndex(d2)
  {
    MondayStartsWeek(d1);
    MondayStartsWeek(d2);
    var c1, c2 := CivilFromDays(MondayOf(d1)), CivilFromDays(MondayOf(d2));
    FormatInjective(c1, c2);
    CivilFromDaysInjective(MondayOf(d1), MondayOf(d2));
  }

  /** Saturday 2026-10-10 (day 20736) is in the week of Monday 2026-10-05. */
  lemma WeekKeyExample()
    ensures CurrentWeekKey(20736) == "week-2026-9-5"
  {
    assert MondayOf(20736) == 20731;
    MondayFifthOfOctober2026();
    assert IntToDecimal(2026) == "2026";
    assert IntToDecimal(9) == "9";
    assert IntToDecimal(5) == "5";
  }
}
