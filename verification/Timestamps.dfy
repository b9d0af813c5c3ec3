/** The lease columns hold RFC 3339 text (section 5.1 of RFC 3339 discusses ordering), and the lease
  * sweep compares that text byte by byte. For UTC timestamps with whole seconds, as written by
  * `time.Now().UTC().Format(time.RFC3339)`, text order is time order. */
module Timestamps {
  import opened TextOrder

  datatype Stamp = Stamp(year: nat, month: nat, day: nat, hour: nat, minute: nat, second: nat)

  predicate Leap(y: nat) { y % 4 == 0 && (y % 100 != 0 || y % 400 == 0) }

  function DaysInMonth(y: nat, m: nat): nat
    requires 1 <= m <= 12
  {
    if m == 2 then if Leap(y) then 29 else 28
    else if m in {4, 6, 9, 11} then 30 else 31
  }

  predicate Valid(s: Stamp)
  {
    && s.year <= 9999 && 1 <= s.month <= 12 && 1 <= s.day <= DaysInMonth(s.year, s.month)
    && s.hour < 24 && s.minute < 60 && s.second < 60
  }

  function YearLength(y: nat): nat { if Leap(y) then 366 else 365 }

  /** Days from the first of January of year 0 to the first of January of year `y`. */
  function DaysBeforeYear(y: nat): nat
  {
    if y == 0 then 0 else DaysBeforeYear(y - 1) + YearLength(y - 1)
  }

  /** Days from the first of January to the first of month `m`. */
  function DaysBeforeMonth(y: nat, m: nat): nat
    requires 1 <= m <= 12
  {
    if m == 1 then 0 else DaysBeforeMonth(y, m - 1) + DaysInMonth(y, m - 1)
  }

  /** Seconds since the start of year 0. */
  function Instant(s: Stamp): nat
    requires Valid(s)
  {
    (DaysBeforeYear(s.year) + DaysBeforeMonth(s.year, s.month) + s.day - 1) * 86400
    + s.hour * 3600 + s.minute * 60 + s.second
  }

  function Digit(d: nat): char
    requires d < 10
  {
    '0' + d as char
  }

  function Two(n: nat): string
    requires n < 100
  {
    [Digit(n / 10), Digit(n % 10)]
  }

  function Four(n: nat): string
    requires n < 10000
  {
    Two(n / 100) + Two(n % 100)
  }

  /** "2006-01-02T15:04:05Z" */
  function Text(s: Stamp): string
    requires Valid(s)
  {
    Four(s.year) + "-" + Two(s.month) + "-" + Two(s.day) + "T" + Two(s.hour) + ":" + Two(s.minute) + ":" + Two(s.second) + "Z"
  }

  function Number(digits: string): int
  {
    if digits == "" then 0 else 10 * Number(digits[..|digits| - 1]) + (digits[|digits| - 1] as int - '0' as int)
  }

  lemma TwoReads(n: nat)
    requires n < 100
    ensures |Two(n)| == 2 && Number(Two(n)) == n
  {
    var t := Two(n);
    assert t[..1] == [t[0]] && t[..1][..0] == "";
    assert Number(t[..1]) == n / 10;
  }

  lemma FourReads(n: nat)
    requires n < 10000
    ensures |Four(n)| == 4 && Number(Four(n)) == n
  {
    var t := Four(n);
    TwoReads(n / 100);
    assert t[..3] == Two(n / 100) + [t[2]] && t[..3][..2] == Two(n / 100);
    assert Number(t[..3]) == 10 * (n / 100) + n % 100 / 10;
    assert n == 100 * (n / 100) + 10 * (n % 100 / 10) + n % 100 % 10;
  }

  /** The text has the fields at their places, in four and two digits, with the marks of RFC 3339 between. */
  lemma TextReads(s: Stamp)
    requires Valid(s)
    ensures var t := Text(s);
            && |t| == 20 && t[4] == '-' && t[7] == '-' && t[10] == 'T' && t[13] == ':' && t[16] == ':' && t[19] == 'Z'
            && Number(t[..4]) == s.year && Number(t[5..7]) == s.month && Number(t[8..10]) == s.day
            && Number(t[11..13]) == s.hour && Number(t[14..16]) == s.minute && Number(t[17..19]) == s.second
  {
    var t := Text(s);
    FourReads(s.year);
    TwoReads(s.month);
    TwoReads(s.day);
    TwoReads(s.hour);
    TwoReads(s.minute);
    TwoReads(s.second);
    assert t[..4] == Four(s.year) && t[5..7] == Two(s.month) && t[8..10] == Two(s.day);
    assert t[11..13] == Two(s.hour) && t[14..16] == Two(s.minute) && t[17..19] == Two(s.second);
  }

  /** Digit groups of equal width compare like numbers, and equal groups hand over to what follows. */
  lemma TwoDigits(m: nat, n: nat, a: string, b: string)
    requires m < 100 && n < 100
    ensures TextLess(Two(m) + a, Two(n) + b) <==> m < n || (m == n && TextLess(a, b))
  {
  }

  lemma FourDigits(m: nat, n: nat, a: string, b: string)
    requires m < 10000 && n < 10000
    ensures TextLess(Four(m) + a, Four(n) + b) <==> m < n || (m == n && TextLess(a, b))
  {
    assert Four(m) + a == Two(m / 100) + (Two(m % 100) + a);
    assert Four(n) + b == Two(n / 100) + (Two(n % 100) + b);
    TwoDigits(m / 100, n / 100, Two(m % 100) + a, Two(n % 100) + b);
    TwoDigits(m % 100, n % 100, a, b);
    assert m == 100 * (m / 100) + m % 100 && n == 100 * (n / 100) + n % 100;
  }

  lemma SameMark(c: string, a: string, b: string)
    requires |c| == 1
    ensures TextLess(c + a, c + b) <==> TextLess(a, b)
  {
  }

  predicate FieldsLess(a: Stamp, b: Stamp)
  {
    || a.year < b.year
    || (a.year == b.year && DateLess(a, b))
  }

  predicate DateLess(a: Stamp, b: Stamp)
  {
    || a.month < b.month
    || (a.month == b.month && (a.day < b.day || (a.day == b.day && ClockLess(a, b))))
  }

  predicate ClockLess(a: Stamp, b: Stamp)
  {
    || a.hour < b.hour
    || (a.hour == b.hour && (a.minute < b.minute || (a.minute == b.minute && a.second < b.second)))
  }

  function Clock(s: Stamp): string
    requires Valid(s)
  {
    Two(s.hour) + (":" + (Two(s.minute) + (":" + (Two(s.second) + "Z"))))
  }

  lemma ClockText(a: Stamp, b: Stamp)
    requires Valid(a) && Valid(b)
    ensures TextLess(Clock(a), Clock(b)) <==> ClockLess(a, b)
  {
    TwoDigits(a.hour, b.hour, ":" + (Two(a.minute) + (":" + (Two(a.second) + "Z"))), ":" + (Two(b.minute) + (":" + (Two(b.second) + "Z"))));
    SameMark(":", Two(a.minute) + (":" + (Two(a.second) + "Z")), Two(b.minute) + (":" + (Two(b.second) + "Z")));
    TwoDigits(a.minute, b.minute, ":" + (Two(a.second) + "Z"), ":" + (Two(b.second) + "Z"));
    SameMark(":", Two(a.second) + "Z", Two(b.second) + "Z");
    TwoDigits(a.second, b.second, "Z", "Z");
    assert !TextLess("Z"[1..], "Z"[1..]);
  }

  lemma FieldsText(a: Stamp, b: Stamp)
    requires Valid(a) && Valid(b)
    ensures TextLess(Text(a), Text(b)) <==> FieldsLess(a, b)
  {
    var ta, tb := "T" + Clock(a), "T" + Clock(b);
    var da, db := "-" + (Two(a.day) + ta), "-" + (Two(b.day) + tb);
    assert Text(a) == Four(a.year) + ("-" + (Two(a.month) + da));
    assert Text(b) == Four(b.year) + ("-" + (Two(b.month) + db));
    FourDigits(a.year, b.year, "-" + (Two(a.month) + da), "-" + (Two(b.month) + db));
    SameMark("-", Two(a.month) + da, Two(b.month) + db);
    TwoDigits(a.month, b.month, da, db);
    SameMark("-", Two(a.day) + ta, Two(b.day) + tb);
    TwoDigits(a.day, b.day, ta, tb);
    SameMark("T", Clock(a), Clock(b));
    ClockText(a, b);
  }

  // ---------------------------------------------------------------- the calendar

  lemma {:induction false} YearsAddUp(y: nat, z: nat)
    requires y < z
    ensures DaysBeforeYear(y) + YearLength(y) <= DaysBeforeYear(z)
    decreases z
  {
    if y + 1 < z {
      YearsAddUp(y, z - 1);
    }
  }

  lemma {:induction false} MonthsAddUp(y: nat, m: nat, n: nat)
    requires 1 <= m < n <= 12
    ensures DaysBeforeMonth(y, m) + DaysInMonth(y, m) <= DaysBeforeMonth(y, n)
    decreases n
  {
    if m + 1 < n {
      MonthsAddUp(y, m, n - 1);
    }
  }

  lemma YearOfMonths(y: nat)
    ensures DaysBeforeMonth(y, 12) + 31 == YearLength(y)
  {
    assert DaysBeforeMonth(y, 3) == 31 + DaysInMonth(y, 2) by {
      assert DaysBeforeMonth(y, 2) == DaysBeforeMonth(y, 1) + 31;
    }
    assert DaysBeforeMonth(y, 6) == DaysBeforeMonth(y, 3) + 92 by {
      assert DaysBeforeMonth(y, 5) == DaysBeforeMonth(y, 4) + 30;
    }
    assert DaysBeforeMonth(y, 9) == DaysBeforeMonth(y, 6) + 92 by {
      assert DaysBeforeMonth(y, 8) == DaysBeforeMonth(y, 7) + 31;
    }
    assert DaysBeforeMonth(y, 12) == DaysBeforeMonth(y, 9) + 91 by {
      assert DaysBeforeMonth(y, 11) == DaysBeforeMonth(y, 10) + 31;
    }
  }

  function DayOf(s: Stamp): nat
    requires Valid(s)
  {
    DaysBeforeYear(s.year) + DaysBeforeMonth(s.year, s.month) + s.day - 1
  }

  lemma DayWithinYear(s: Stamp)
    requires Valid(s)
    ensures DaysBeforeYear(s.year) <= DayOf(s) < DaysBeforeYear(s.year) + YearLength(s.year)
  {
    YearOfMonths(s.year);
    if s.month < 12 {
      MonthsAddUp(s.year, s.month, 12);
    }
  }

  /** An earlier year, month or day gives an earlier day number. */
  lemma DaysInOrder(a: Stamp, b: Stamp)
    requires Valid(a) && Valid(b)
    requires a.year < b.year || (a.year == b.year && (a.month < b.month || (a.month == b.month && a.day < b.day)))
    ensures DayOf(a) < DayOf(b)
  {
    if a.year < b.year {
      DayWithinYear(a);
      DayWithinYear(b);
      YearsAddUp(a.year, b.year);
    } else if a.month < b.month {
      MonthsAddUp(a.year, a.month, b.month);
    }
  }

  lemma FieldsInOrder(a: Stamp, b: Stamp)
    requires Valid(a) && Valid(b) && FieldsLess(a, b)
    ensures Instant(a) < Instant(b)
  {
    if (a.year, a.month, a.day) != (b.year, b.month, b.day) {
      DaysInOrder(a, b);
      assert DayOf(a) + 1 <= DayOf(b);
      assert (DayOf(a) + 1) * 86400 <= DayOf(b) * 86400;
    }
  }

  /** The comparison of the lease sweep, on text, is the comparison of the instants. */
  lemma TextOrderIsTimeOrder(a: Stamp, b: Stamp)
    requires Valid(a) && Valid(b)
    ensures TextLess(Text(a), Text(b)) <==> Instant(a) < Instant(b)
    ensures Text(a) == Text(b) <==> Instant(a) == Instant(b)
  {
    FieldsText(a, b);
    FieldsText(b, a);
    if FieldsLess(a, b) {
      FieldsInOrder(a, b);
    } else if FieldsLess(b, a) {
      FieldsInOrder(b, a);
    } else {
      assert a == b;
    }
    FieldsText(a, a);
  }
}
