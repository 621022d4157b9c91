/**
 UTC dates as they appear in object keys: the Gregorian calendar counted from
 0001-01-01, the `2006-01-02` layout, and parsing of that layout.
 */
module Calendar {
  import opened Options
  import opened Text

  datatype Date = Date(year: nat, month: nat, day: nat)

  predicate Leap(year: nat) {
    year % 4 == 0 && (year % 100 != 0 || year % 400 == 0)
  }

  function DaysIn(year: nat, month: nat): nat {
    if month == 2 then (if Leap(year) then 29 else 28)
    else if month in {4, 6, 9, 11} then 30
    else 31
  }

  predicate ValidDate(d: Date) {
    1 <= d.month <= 12 && 1 <= d.day <= DaysIn(d.year, d.month)
  }

  /** Dates that the four-digit year of the layout can express. */
  predicate Printable(d: Date) {
    ValidDate(d) && d.year <= 9999
  }

  /** Chronological order. */
  predicate Before(a: Date, b: Date) {
    a.year < b.year
    || (a.year == b.year && (a.month < b.month || (a.month == b.month && a.day < b.day)))
  }

  function Tomorrow(d: Date): (n: Date)
    requires ValidDate(d)
    ensures ValidDate(n) && Before(d, n)
  {
    if d.day < DaysIn(d.year, d.month) then d.(day := d.day + 1)
    else if d.month < 12 then Date(d.year, d.month + 1, 1)
    else Date(d.year + 1, 1, 1)
  }

  /** The date that lies `n` days after 0001-01-01. */
  function Civil(n: nat): (d: Date)
    ensures ValidDate(d)
  {
    if n == 0 then Date(1, 1, 1) else Tomorrow(Civil(n - 1))
  }

  /** Counting days and comparing dates agree. */
  lemma {:induction false} CivilMonotone(m: nat, n: nat)
    ensures m < n ==> Before(Civil(m), Civil(n))
    ensures Before(Civil(m), Civil(n)) ==> m < n
  {
    if m < n {
      CivilMonotone(m, n - 1);
    } else if n < m {
      CivilMonotone(n, m - 1);
      assert Before(Civil(n), Civil(m));
    }
  }

  /** The days of the year before the month begins. */
  function DaysBefore(year: nat, month: nat): nat
    requires 1 <= month <= 12
  {
    [0, 31, 59, 90, 120, 151, 181, 212, 243, 273, 304, 334][month - 1] + if month > 2 && Leap(year) then 1 else 0
  }

  /** The number of a date by the Gregorian rule: 365 days a year, one more every fourth year, but not every
      hundredth, but every four hundredth. */
  function DayNumber(d: Date): int
    requires 1 <= d.month <= 12
  {
    var y := d.year - 1;
    365 * y + y / 4 - y / 100 + y / 400 + DaysBefore(d.year, d.month) + d.day - 1
  }

  lemma EveryFourth(y: nat)
    ensures (y + 1) / 4 == y / 4 + if (y + 1) % 4 == 0 then 1 else 0
  {
  }

  lemma EveryHundredth(y: nat)
    ensures (y + 1) / 100 == y / 100 + if (y + 1) % 100 == 0 then 1 else 0
  {
  }

  lemma EveryFourHundredth(y: nat)
    ensures (y + 1) / 400 == y / 400 + if (y + 1) % 400 == 0 then 1 else 0
  {
  }

  lemma YearEnds(year: nat)
    requires year >= 1
    ensures DayNumber(Date(year + 1, 1, 1)) == DayNumber(Date(year, 12, 31)) + 1
  {
    EveryFourth(year - 1);
    EveryHundredth(year - 1);
    EveryFourHundredth(year - 1);
    LeapDays(year);
  }

  lemma LeapDays(year: nat)
    ensures (if Leap(year) then 1 else 0)
         == (if year % 4 == 0 then 1 else 0) - (if year % 100 == 0 then 1 else 0) + (if year % 400 == 0 then 1 else 0)
  {
    Nested(year);
  }

  lemma Nested(year: nat)
    ensures year % 400 == 0 ==> year % 100 == 0
    ensures year % 100 == 0 ==> year % 4 == 0
  {
    if year % 400 == 0 {
      var q := year / 400;
      assert year == 100 * (4 * q);
    }
    if year % 100 == 0 {
      var q := year / 100;
      assert year == 4 * (25 * q);
    }
  }

  lemma TomorrowIsNext(d: Date)
    requires ValidDate(d) && d.year >= 1
    ensures DayNumber(Tomorrow(d)) == DayNumber(d) + 1
  {
    if d.day < DaysIn(d.year, d.month) {
    } else if d.month < 12 {
      assert DaysBefore(d.year, d.month + 1) == DaysBefore(d.year, d.month) + DaysIn(d.year, d.month);
    } else {
      YearEnds(d.year);
    }
  }

  /** The n-th day after 0001-01-01 is the date with the number n. */
  lemma {:induction false} CivilIsGregorian(n: nat)
    ensures Civil(n).year >= 1 && DayNumber(Civil(n)) == n
  {
    if n == 0 {
    } else {
      CivilIsGregorian(n - 1);
      TomorrowIsNext(Civil(n - 1));
    }
  }

  // ---------------------------------------------------------------------
  // The layout 2006-01-02
  // ---------------------------------------------------------------------

  function Format(d: Date): (s: string)
    ensures |s| == 10
  {
    Fixed(d.year, 4) + "-" + Fixed(d.month, 2) + "-" + Fixed(d.day, 2)
  }

  function Parse(s: string): (r: Option<Date>)
    ensures r.Some? ==> ValidDate(r.value)
  {
    if |s| == 10 && s[4] == '-' && s[7] == '-'
       && AllDigits(s[..4]) && AllDigits(s[5..7]) && AllDigits(s[8..])
    then
      var d := Date(Value(s[..4]), Value(s[5..7]), Value(s[8..]));
      if ValidDate(d) then Some(d) else None
    else None
  }

  lemma SmallPowers()
    ensures Pow10(2) == 100 && Pow10(4) == 10_000
  {
    assert Pow10(1) == 10;
    assert Pow10(3) == 1000;
  }

  /** Three numbers with dashes between them. */
  lemma DashesApart(y: string, m: string, t: string)
    requires |y| == 4 && |m| == 2 && |t| == 2
    ensures var s := y + "-" + m + "-" + t;
            && |s| == 10 && s[4] == '-' && s[7] == '-' && s[..4] == y && s[5..7] == m && s[8..] == t
            && forall i :: 0 <= i < 10 ==> s[i] == '-' || s[i] in y || s[i] in m || s[i] in t
  {
    var s := y + "-" + m + "-" + t;
    forall i | 0 <= i < 10 ensures s[i] == '-' || s[i] in y || s[i] in m || s[i] in t {
      if i < 4 {
        assert s[i] == y[i];
      } else if 5 <= i < 7 {
        assert s[i] == m[i - 5];
      } else if 8 <= i {
        assert s[i] == t[i - 8];
      }
    }
  }

  lemma ParseFormat(d: Date)
    requires Printable(d)
    ensures Parse(Format(d)) == Some(d)
    ensures '/' !in Format(d)
  {
    DashesApart(Fixed(d.year, 4), Fixed(d.month, 2), Fixed(d.day, 2));
    SmallPowers();
    ValueFixed(d.year, 4);
    ValueFixed(d.month, 2);
    ValueFixed(d.day, 2);
  }

  lemma FieldOrder(head: string, m: nat, n: nat, w: nat, x: string, y: string)
    requires m < n < Pow10(w)
    ensures Less(head + (Fixed(m, w) + x), head + (Fixed(n, w) + y))
  {
    FixedOrder(m, n, w);
    LessExtend(Fixed(m, w), Fixed(n, w), x, y);
    LessCommonPrefix(head, Fixed(m, w) + x, Fixed(n, w) + y);
  }

  lemma Regroup(y: string, m: string, d: string)
    ensures y + "-" + m + "-" + d == "" + (y + ("-" + m + "-" + d))
    ensures y + "-" + m + "-" + d == (y + "-") + (m + ("-" + d))
    ensures y + "-" + m + "-" + d == (y + "-" + m + "-") + (d + "")
  {
  }

  /** Keys sort by date because formatted dates do. */
  lemma FormatOrder(a: Date, b: Date)
    requires Printable(a) && Printable(b) && Before(a, b)
    ensures Less(Format(a), Format(b))
  {
    SmallPowers();
    var y, m, d := Fixed(a.year, 4), Fixed(a.month, 2), Fixed(a.day, 2);
    var y', m', d' := Fixed(b.year, 4), Fixed(b.month, 2), Fixed(b.day, 2);
    Regroup(y, m, d);
    Regroup(y', m', d');
    if a.year < b.year {
      FieldOrder("", a.year, b.year, 4, "-" + m + "-" + d, "-" + m' + "-" + d');
    } else if a.month < b.month {
      FieldOrder(y + "-", a.month, b.month, 2, "-" + d, "-" + d');
    } else {
      FieldOrder(y + "-" + m + "-", a.day, b.day, 2, "", "");
    }
  }
}
