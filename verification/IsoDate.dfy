/** Dates as YYYY-MM-DD strings, which the client compares as strings, against the calendar. */
module IsoDate {

  datatype Civil = Civil(year: nat, month: nat, day: nat)

  predicate Leap(year: nat) {
    year % 4 == 0 && (year % 100 != 0 || year % 400 == 0)
  }

  function MonthLength(year: nat, month: nat): nat {
    if month == 2 then (if Leap(year) then 29 else 28)
    else if month in {4, 6, 9, 11} then 30
    else 31
  }

  /** A date whose ISO form has four digits of year. */
  predicate Valid(c: Civil) {
    c.year <= 9999 && 1 <= c.month <= 12 && 1 <= c.day <= MonthLength(c.year, c.month)
  }

  // ---------------------------------------------------------------- counting days

  function YearStart(year: nat): nat {
    if year == 0 then 0 else YearStart(year - 1) + (if Leap(year - 1) then 366 else 365)
  }

  /** Days of the year before the month. */
  function MonthStart(year: nat, month: nat): nat {
    if month <= 1 then 0 else MonthStart(year, month - 1) + MonthLength(year, month - 1)
  }

  function DayNumber(c: Civil): nat {
    YearStart(c.year) + MonthStart(c.year, c.month) + c.day
  }

  function NextDay(c: Civil): Civil {
    if c.day < MonthLength(c.year, c.month) then c.(day := c.day + 1)
    else if c.month < 12 then Civil(c.year, c.month + 1, 1)
    else Civil(c.year + 1, 1, 1)
  }

  lemma YearLength(year: nat)
    ensures MonthStart(year, 12) + MonthLength(year, 12) == if Leap(year) then 366 else 365
  {
    assert MonthStart(year, 2) == 31 + MonthStart(year, 1) == 31;
    assert MonthStart(year, 3) == 31 + MonthLength(year, 2);
    assert MonthStart(year, 5) == MonthStart(year, 3) + 61;
    assert MonthStart(year, 7) == MonthStart(year, 5) + 61;
    assert MonthStart(year, 9) == MonthStart(year, 7) + 62;
    assert MonthStart(year, 11) == MonthStart(year, 9) + 61;
  }

  /** The calendar's own successor of a day has the next number. */
  lemma NextDayNumber(c: Civil)
    requires Valid(c)
    ensures DayNumber(NextDay(c)) == DayNumber(c) + 1
  {
    YearLength(c.year);
  }

  lemma {:induction false} MonthsGrow(year: nat, m: nat, n: nat)
    requires 1 <= m < n
    ensures MonthStart(year, m) + MonthLength(year, m) <= MonthStart(year, n)
    decreases n
  {
    if m < n - 1 {
      MonthsGrow(year, m, n - 1);
    }
  }

  lemma {:induction false} YearsGrow(y: nat, z: nat)
    requires y < z
    ensures YearStart(y) + (if Leap(y) then 366 else 365) <= YearStart(z)
    decreases z
  {
    if y < z - 1 {
      YearsGrow(y, z - 1);
    }
  }

  /** Year, then month, then day. */
  predicate Before(a: Civil, b: Civil) {
    a.year < b.year || (a.year == b.year && (a.month < b.month || (a.month == b.month && a.day < b.day)))
  }

  lemma BeforeCounts(a: Civil, b: Civil)
    requires Valid(a) && Valid(b) && Before(a, b)
    ensures DayNumber(a) < DayNumber(b)
  {
    if a.year < b.year {
      YearsGrow(a.year, b.year);
      YearLength(a.year);
      if a.month < 12 {
        MonthsGrow(a.year, a.month, 12);
      }
    } else if a.month < b.month {
      MonthsGrow(a.year, a.month, b.month);
    }
  }

  // ---------------------------------------------------------------- strings

  /** The order of JavaScript's < on strings. */
  predicate Less(a: string, b: string) {
    b != "" && (a == "" || a[0] < b[0] || (a[0] == b[0] && Less(a[1..], b[1..])))
  }

  function Digit(n: nat): char
    requires n < 10
  {
    '0' + n as char
  }

  function Power(width: nat): nat {
    if width == 0 then 1 else 10 * Power(width - 1)
  }

  function Decimal(n: nat, width: nat): (s: string)
    ensures |s| == width
  {
    if width == 0 then "" else Decimal(n / 10, width - 1) + [Digit(n % 10)]
  }

  function Iso(c: Civil): string {
    Decimal(c.year, 4) + "-" + Decimal(c.month, 2) + "-" + Decimal(c.day, 2)
  }

  lemma {:induction false} LessConcat(a: string, b: string, c: string, d: string)
    requires |a| == |b|
    ensures Less(a + c, b + d) <==> Less(a, b) || (a == b && Less(c, d))
    decreases |a|
  {
    if a == "" {
      assert a + c == c && b + d == d;
    } else {
      assert (a + c)[1..] == a[1..] + c && (b + d)[1..] == b[1..] + d;
      LessConcat(a[1..], b[1..], c, d);
      assert a == b <==> a[0] == b[0] && a[1..] == b[1..] by {
        assert a == [a[0]] + a[1..] && b == [b[0]] + b[1..];
      }
    }
  }

  /** Padded decimals compare as their numbers. */
  lemma {:induction false} DecimalOrder(m: nat, n: nat, width: nat)
    requires m < Power(width) && n < Power(width)
    ensures Less(Decimal(m, width), Decimal(n, width)) <==> m < n
    ensures Decimal(m, width) == Decimal(n, width) <==> m == n
    decreases width
  {
    if width > 0 {
      DecimalOrder(m / 10, n / 10, width - 1);
      var a, b := Decimal(m / 10, width - 1), Decimal(n / 10, width - 1);
      var c, d := [Digit(m % 10)], [Digit(n % 10)];
      LessConcat(a, b, c, d);
      assert c[1..] == "" && d[1..] == "";
      assert Less(c, d) <==> m % 10 < n % 10;
      assert a + c == b + d <==> a == b && c == d by {
        assert (a + c)[..width - 1] == a && (b + d)[..width - 1] == b;
        assert (a + c)[width - 1..] == c && (b + d)[width - 1..] == d;
      }
      assert c == d <==> m % 10 == n % 10;
    }
  }

  lemma SameIrreflexive(a: string)
    ensures !Less(a, a)
    decreases |a|
  {
  }

  lemma Powers()
    ensures Power(2) == 100 && Power(4) == 10000
  {
    assert Power(0) == 1 && Power(1) == 10 && Power(3) == 1000;
  }

  lemma IsoLess(a: Civil, b: Civil)
    requires Valid(a) && Valid(b)
    ensures Less(Iso(a), Iso(b)) <==> Before(a, b)
  {
    Powers();
    DecimalOrder(a.year, b.year, 4);
    DecimalOrder(a.month, b.month, 2);
    DecimalOrder(a.day, b.day, 2);
    var yearA, yearB := Decimal(a.year, 4), Decimal(b.year, 4);
    var monthA, monthB := Decimal(a.month, 2), Decimal(b.month, 2);
    var dayA, dayB := Decimal(a.day, 2), Decimal(b.day, 2);
    LessConcat(monthA, monthB, "-" + dayA, "-" + dayB);
    LessConcat("-", "-", dayA, dayB);
    LessConcat("-", "-", monthA + ("-" + dayA), monthB + ("-" + dayB));
    LessConcat(yearA, yearB, "-" + (monthA + ("-" + dayA)), "-" + (monthB + ("-" + dayB)));
    SameIrreflexive("-");
    assert Iso(a) == yearA + ("-" + (monthA + ("-" + dayA)));
    assert Iso(b) == yearB + ("-" + (monthB + ("-" + dayB)));
  }

  /** Comparing two ISO dates as strings compares them as days. */
  lemma StringOrderIsDayOrder(a: Civil, b: Civil)
    requires Valid(a) && Valid(b)
    ensures Less(Iso(a), Iso(b)) <==> DayNumber(a) < DayNumber(b)
    ensures Iso(a) == Iso(b) <==> DayNumber(a) == DayNumber(b)
  {
    IsoLess(a, b);
    IsoLess(b, a);
    SameIrreflexive(Iso(a));
    if Before(a, b) {
      BeforeCounts(a, b);
    } else if Before(b, a) {
      BeforeCounts(b, a);
    }
  }

  /** getLaterDate, where "" stands for every falsy date. */
  function LaterDate(left: string, right: string): string {
    if left == "" then right else if right == "" then left else if Less(right, left) then left else right
  }

  /** Of two dates it picks the later day. */
  lemma LaterDateIsLater(a: Civil, b: Civil)
    requires Valid(a) && Valid(b)
    ensures LaterDate(Iso(a), Iso(b)) == Iso(if DayNumber(a) > DayNumber(b) then a else b)
  {
    StringOrderIsDayOrder(b, a);
    assert |Iso(a)| == 10 && |Iso(b)| == 10;
  }
}
