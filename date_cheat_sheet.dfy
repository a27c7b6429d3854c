/** The calendar reference put in the appointment agent's prompt (backend/utils/date_cheat_sheet.py):
    one line for each of the 15 days starting today, with its weekday and its ISO date. The
    current time is a parameter; only its date matters. */
module DateCheatSheet {
  import opened Strings

  /** A day of the proleptic Gregorian calendar, as Python's `datetime` uses it. */
  datatype Date = Date(year: nat, month: nat, day: nat)

  predicate IsLeap(y: nat) {
    y % 4 == 0 && (y % 100 != 0 || y % 400 == 0)
  }

  function DaysInMonth(y: nat, m: nat): nat
    requires 1 <= m <= 12
  {
    if m == 2 then (if IsLeap(y) then 29 else 28)
    else if m == 4 || m == 6 || m == 9 || m == 11 then 30
    else 31
  }

  predicate Valid(d: Date) {
    d.year >= 1 && 1 <= d.month <= 12 && 1 <= d.day <= DaysInMonth(d.year, d.month)
  }

  function YearDays(y: nat): nat {
    if IsLeap(y) then 366 else 365
  }

  /** Days of the years before `y`, counted from year 1. */
  function DaysBeforeYear(y: nat): nat
    requires y >= 1
    decreases y
  {
    if y == 1 then 0 else DaysBeforeYear(y - 1) + YearDays(y - 1)
  }

  /** The closed form: 365 days a year plus one for each leap year, i.e. for each multiple of 4
      that is not a multiple of 100 unless it is one of 400. */
  lemma {:induction false} DaysBeforeYearClosed(y: nat)
    requires y >= 1
    ensures DaysBeforeYear(y) == 365 * (y - 1) + (y - 1) / 4 - (y - 1) / 100 + (y - 1) / 400
    decreases y
  {
    if y > 1 {
      DaysBeforeYearClosed(y - 1);
      YearDaysByDivision(y - 1);
    }
  }

  /** One more year adds one to each count of multiples that the year itself is a multiple of,
      and the year is a leap year exactly when the three counts add up to one more day. */
  lemma YearDaysByDivision(p: nat)
    requires p >= 1
    ensures YearDays(p) + (p - 1) / 4 - (p - 1) / 100 + (p - 1) / 400 == 365 + p / 4 - p / 100 + p / 400
  {
    DivStep4(p);
    DivStep100(p);
    DivStep400(p);
    if p % 100 == 0 {
      assert p % 4 == 0;
    }
    if p % 400 == 0 {
      assert p % 100 == 0;
    }
  }

  lemma DivStep4(p: nat)
    requires p >= 1
    ensures p / 4 == (p - 1) / 4 + (if p % 4 == 0 then 1 else 0)
  {
  }

  lemma DivStep100(p: nat)
    requires p >= 1
    ensures p / 100 == (p - 1) / 100 + (if p % 100 == 0 then 1 else 0)
  {
  }

  lemma DivStep400(p: nat)
    requires p >= 1
    ensures p / 400 == (p - 1) / 400 + (if p % 400 == 0 then 1 else 0)
  {
  }

  /** Days of the months of `y` before `m`. */
  function DaysBeforeMonth(y: nat, m: nat): nat
    requires 1 <= m <= 12
  {
    var leap := if IsLeap(y) then 1 else 0;
    if m == 1 then 0 else if m == 2 then 31
    else [59, 90, 120, 151, 181, 212, 243, 273, 304, 334][m - 3] + leap
  }

  /** Days since 0001-01-01, which is day 0 and a Monday. */
  function DayNumber(d: Date): int
    requires Valid(d)
  {
    DaysBeforeYear(d.year) + DaysBeforeMonth(d.year, d.month) + d.day - 1
  }

  /** The month tables agree: each month's first day follows the last day of the month before. */
  lemma MonthLength(y: nat, m: nat)
    requires 1 <= m < 12
    ensures DaysBeforeMonth(y, m + 1) == DaysBeforeMonth(y, m) + DaysInMonth(y, m)
  {
  }

  /** The day after `d` (`+ timedelta(days=1)`). */
  function NextDay(d: Date): (r: Date)
    requires Valid(d)
    ensures Valid(r)
  {
    if d.day < DaysInMonth(d.year, d.month) then Date(d.year, d.month, d.day + 1)
    else if d.month < 12 then Date(d.year, d.month + 1, 1)
    else Date(d.year + 1, 1, 1)
  }

  /** The next day is the day numbered one more. */
  lemma NextDayNumber(d: Date)
    requires Valid(d)
    ensures DayNumber(NextDay(d)) == DayNumber(d) + 1
  {
    if d.day == DaysInMonth(d.year, d.month) {
      if d.month < 12 {
        MonthLength(d.year, d.month);
      }
    }
  }

  /** `d + timedelta(days=n)`. */
  function AddDays(d: Date, n: nat): (r: Date)
    requires Valid(d)
    ensures Valid(r)
    decreases n
  {
    if n == 0 then d else NextDay(AddDays(d, n - 1))
  }

  /** Adding `n` days is moving `n` day numbers on. */
  lemma {:induction false} AddDaysNumber(d: Date, n: nat)
    requires Valid(d)
    ensures DayNumber(AddDays(d, n)) == DayNumber(d) + n
    decreases n
  {
    if n > 0 {
      AddDaysNumber(d, n - 1);
      NextDayNumber(AddDays(d, n - 1));
    }
  }

  /** `weekday()`: 0 is Monday. */
  function Weekday(d: Date): (w: nat)
    requires Valid(d)
    ensures w < 7
  {
    DayNumber(d) % 7
  }

  const WeekdayNames: seq<string> := ["Monday", "Tuesday", "Wednesday", "Thursday", "Friday", "Saturday", "Sunday"]

  /** `strftime('%Y-%m-%d')`. */
  function IsoDate(d: Date): (r: string)
    ensures |r| >= 10 && forall k :: 0 <= k < |r| ==> IsDigit(r[k]) || r[k] == '-'
  {
    PadNat(d.year, 4) + "-" + PadNat(d.month, 2) + "-" + PadNat(d.day, 2)
  }

  // Written in two pieces: the verifier reasons about short literals more cheaply.
  const Header := "**CALENDAR REFERENCE " + "(Use this to find dates):**\n"

  /** The line for offset `i`, naming the day's weekday (`%A`) and its date. */
  function Line(i: nat, d: Date): (r: string)
    requires Valid(d)
    ensures |r| > 0 && r[|r| - 1] == '\n' && Free(r[..|r| - 1], '\n')
  {
    var name := WeekdayNames[Weekday(d)];
    var body := "- +" + NatToString(i) + " days (" + name + "): " + IsoDate(d);
    assert Free(name, '\n') by {
      var w := Weekday(d);
      assert w == 0 || w == 1 || w == 2 || w == 3 || w == 4 || w == 5 || w == 6;
    }
    LineBodyFree(NatToString(i), name, IsoDate(d));
    assert (body + "\n")[..|body|] == body;
    body + "\n"
  }

  /** The parts of a line hold no line break, so neither does the line before its end. */
  lemma LineBodyFree(offset: string, name: string, date: string)
    requires Free(offset, '\n') && Free(name, '\n') && Free(date, '\n')
    ensures Free("- +" + offset + " days (" + name + "): " + date, '\n')
  {
    FreeConcat("- +", offset, '\n');
    FreeConcat("- +" + offset, " days (", '\n');
    FreeConcat("- +" + offset + " days (", name, '\n');
    FreeConcat("- +" + offset + " days (" + name, "): ", '\n');
    FreeConcat("- +" + offset + " days (" + name + "): ", date, '\n');
  }

  /** The lines for offsets `0 .. n - 1` from `now`. */
  function Lines(now: Date, n: nat): (r: seq<string>)
    requires Valid(now)
    ensures |r| == n
    ensures forall i :: 0 <= i < n ==> r[i] == Line(i, AddDays(now, i))
    decreases n
  {
    if n == 0 then [] else Lines(now, n - 1) + [Line(n - 1, AddDays(now, n - 1))]
  }

  /** `get_date_cheat_sheet`, with `now` passed in: the header, then the 15 lines for offsets
      0 to 14 in order. */
  method CheatSheet(now: Date) returns (sheet: string)
    requires Valid(now)
    ensures sheet == Header + Concat(Lines(now, 15))
  {
    sheet := Header;
    for i := 0 to 15
      invariant sheet == Header + Concat(Lines(now, i))
    {
      var line := Line(i, AddDays(now, i));
      ConcatSnoc(Lines(now, i), line);
      AppendAssoc(Header, Concat(Lines(now, i)), line);
      sheet := sheet + line;
    }
  }

  /** `k` days later is `k` weekdays on, cyclically. */
  lemma WeekdayStep(d: Date, e: Date, k: nat)
    requires Valid(d) && Valid(e) && DayNumber(e) == DayNumber(d) + k
    ensures Weekday(e) == (Weekday(d) + k) % 7
  {
    ModAdd7(DayNumber(d), k);
  }

  lemma ModAdd7(a: int, k: nat)
    ensures (a + k) % 7 == (a % 7 + k) % 7
  {
    var q := a / 7;
    assert a == 7 * q + a % 7;
    assert a + k == 7 * q + (a % 7 + k);
  }

  /** Consecutive lines name consecutive days, and the weekday advances by one, from Sunday back
      to Monday. */
  lemma ConsecutiveLines(now: Date, i: nat)
    requires Valid(now) && i < 14
    ensures DayNumber(AddDays(now, i + 1)) == DayNumber(AddDays(now, i)) + 1
    ensures AddDays(now, i + 1) == NextDay(AddDays(now, i))
    ensures Weekday(AddDays(now, i + 1)) == (Weekday(AddDays(now, i)) + 1) % 7
  {
    AddDaysNumber(now, i);
    AddDaysNumber(now, i + 1);
    WeekdayStep(AddDays(now, i), AddDays(now, i + 1), 1);
  }

  /** A week later is the same weekday: the line for offset 14 repeats the weekday of offset 0,
      and offset 7 sits between them. */
  lemma WeekLater(now: Date, i: nat)
    requires Valid(now)
    ensures Weekday(AddDays(now, i + 7)) == Weekday(AddDays(now, i))
  {
    var d := AddDays(now, i);
    var e := AddDays(now, i + 7);
    AddDaysNumber(now, i);
    AddDaysNumber(now, i + 7);
    WeekAfter(d, e);
  }

  lemma WeekAfter(d: Date, e: Date)
    requires Valid(d) && Valid(e) && DayNumber(e) == DayNumber(d) + 7
    ensures Weekday(e) == Weekday(d)
  {
    WeekdayStep(d, e, 7);
  }

  /** The weekday of 1 January of year `y`, in closed form. */
  lemma NewYearWeekday(y: nat)
    requires y >= 1
    ensures Weekday(Date(y, 1, 1)) == (365 * (y - 1) + (y - 1) / 4 - (y - 1) / 100 + (y - 1) / 400) % 7
  {
    DaysBeforeYearClosed(y);
  }

  /** The weekday numbering against two known days: 1 January 1970 was a Thursday and
      1 January 2024 a Monday. */
  lemma KnownWeekdays(y: nat)
    ensures y == 1970 ==> Weekday(Date(y, 1, 1)) == 3 && WeekdayNames[3] == "Thursday"
    ensures y == 2024 ==> Weekday(Date(y, 1, 1)) == 0 && WeekdayNames[0] == "Monday"
  {
    if y == 1970 {
      Thursday1970(y);
    } else if y == 2024 {
      Monday2024(y);
    }
  }

  lemma Thursday1970(y: nat)
    requires y == 1970
    ensures Weekday(Date(y, 1, 1)) == 3
  {
    NewYearValue(y, 719162);
  }

  lemma Monday2024(y: nat)
    requires y == 2024
    ensures Weekday(Date(y, 1, 1)) == 0
  {
    NewYearValue(y, 738885);
  }

  lemma NewYearValue(y: nat, n: int)
    requires y >= 1 && 365 * (y - 1) + (y - 1) / 4 - (y - 1) / 100 + (y - 1) / 400 == n
    ensures Weekday(Date(y, 1, 1)) == n % 7
  {
    NewYearWeekday(y);
  }
}
