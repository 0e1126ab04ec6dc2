/**
 * Calendar dates as the dashboard handles them: report dates parsed from file names
 * with `datetime.strptime(s, '%Y-%m-%d')` and shown again with `strftime('%Y-%m-%d')`.
 */
module Dates {
  import opened Wrappers
  import opened Strings

  /**
   * A date, encoded as `year * 10000 + month * 100 + day`, so that integer order
   * is calendar order (see `DateKeyOrder`).
   */
  type Date = int

  function DateKey(year: int, month: int, day: int): Date {
    year * 10000 + month * 100 + day
  }

  predicate IsLeapYear(y: int) {
    (y % 4 == 0 && y % 100 != 0) || y % 400 == 0
  }

  function DaysInMonth(y: int, m: int): int {
    if m == 2 then (if IsLeapYear(y) then 29 else 28)
    else if m == 4 || m == 6 || m == 9 || m == 11 then 30
    else 31
  }

  /** The dates `datetime.date` accepts: years 1 to 9999 of the proleptic Gregorian calendar. */
  predicate ValidDate(y: int, m: int, d: int) {
    1 <= y <= 9999 && 1 <= m <= 12 && 1 <= d <= DaysInMonth(y, m)
  }

  /** On valid dates, the key order is the lexicographic (year, month, day) order. */
  lemma DateKeyOrder(y1: int, m1: int, d1: int, y2: int, m2: int, d2: int)
    requires ValidDate(y1, m1, d1) && ValidDate(y2, m2, d2)
    ensures DateKey(y1, m1, d1) < DateKey(y2, m2, d2)
        <==> y1 < y2 || (y1 == y2 && (m1 < m2 || (m1 == m2 && d1 < d2)))
    ensures DateKey(y1, m1, d1) == DateKey(y2, m2, d2) <==> y1 == y2 && m1 == m2 && d1 == d2
  {
  }

  predicate IsDigit(c: char) {
    '0' <= c <= '9'
  }

  predicate AllDigits(s: string) {
    forall i :: 0 <= i < |s| ==> IsDigit(s[i])
  }

  function DigitValue(c: char): nat
    requires IsDigit(c)
  {
    (c - '0') as nat
  }

  function Digit(n: nat): char
    requires n < 10
  {
    '0' + n as char
  }

  /** The value of a string of decimal digits (`int(s)`). */
  function DigitsValue(s: string): nat
    requires AllDigits(s)
    decreases |s|
  {
    if |s| == 0 then 0 else 10 * DigitsValue(s[..|s| - 1]) + DigitValue(s[|s| - 1])
  }

  /** The `%d` directive: one or two digits, or a space followed by one digit. */
  function DayFieldValue(f: string): Option<nat> {
    if 1 <= |f| <= 2 && AllDigits(f) then Some(DigitsValue(f))
    else if |f| == 2 && f[0] == ' ' && IsDigit(f[1]) then Some(DigitValue(f[1]))
    else None
  }

  /**
   * `datetime.strptime(s, '%Y-%m-%d')`: exactly four year digits, a one- or
   * two-digit month, a day as `DayFieldValue` reads it, nothing else; `None`
   * where `strptime` raises `ValueError` (no match, data left over, or a date
   * the calendar does not have).
   */
  function ParseIsoDate(s: string): (r: Option<Date>)
    ensures r.Some? ==> exists y, m, d :: ValidDate(y, m, d) && r.value == DateKey(y, m, d)
  {
    var parts := Split(s, '-');
    if |parts| != 3 then None
    else
      var year, month, day := parts[0], parts[1], parts[2];
      if !(|year| == 4 && AllDigits(year) && 1 <= |month| <= 2 && AllDigits(month)) then None
      else
        match DayFieldValue(day)
        case None => None
        case Some(d) =>
          var y, m := DigitsValue(year), DigitsValue(month);
          if ValidDate(y, m, d) then Some(DateKey(y, m, d)) else None
  }

  function Pad2(n: nat): string
    requires n < 100
  {
    [Digit(n / 10), Digit(n % 10)]
  }

  function Pad4(n: nat): string
    requires n < 10000
  {
    Pad2(n / 100) + Pad2(n % 100)
  }

  /** `date.strftime('%Y-%m-%d')` */
  function FormatIsoDate(y: nat, m: nat, d: nat): string
    requires ValidDate(y, m, d)
  {
    Pad4(y) + "-" + Pad2(m) + "-" + Pad2(d)
  }

  lemma Pad2Value(n: nat)
    requires n < 100
    ensures AllDigits(Pad2(n)) && DigitsValue(Pad2(n)) == n
  {
    var s := Pad2(n);
    assert s[..1] == [s[0]];
    assert DigitsValue(s[..1]) == n / 10;
  }

  lemma DigitsAppend2(a: string, b: string)
    requires AllDigits(a) && AllDigits(b) && |b| == 2
    ensures AllDigits(a + b)
    ensures DigitsValue(a + b) == 100 * DigitsValue(a) + DigitsValue(b)
  {
    var ab, a1, b1 := a + b, a + [b[0]], [b[0]];
    assert AllDigits(ab) && AllDigits(a1) && AllDigits(b1);
    assert ab[..|ab| - 1] == a1 && ab[|ab| - 1] == b[1];
    assert DigitsValue(ab) == 10 * DigitsValue(a1) + DigitValue(b[1]);
    assert a1[..|a1| - 1] == a;
    assert DigitsValue(a1) == 10 * DigitsValue(a) + DigitValue(b[0]);
    assert b[..1] == b1 && b1[..0] == [];
    assert DigitsValue(b1) == DigitValue(b[0]);
    assert DigitsValue(b) == 10 * DigitsValue(b1) + DigitValue(b[1]);
    assert DigitsValue(b) == 10 * DigitValue(b[0]) + DigitValue(b[1]);
  }

  lemma Pad4Value(n: nat)
    requires n < 10000
    ensures AllDigits(Pad4(n)) && DigitsValue(Pad4(n)) == n
  {
    Pad2Value(n / 100);
    Pad2Value(n % 100);
    DigitsAppend2(Pad2(n / 100), Pad2(n % 100));
  }

  /** A formatted date holds only digits and dashes. */
  lemma FormatIsoDateChars(y: nat, m: nat, d: nat)
    requires ValidDate(y, m, d)
    ensures forall i :: 0 <= i < |FormatIsoDate(y, m, d)| ==>
      IsDigit(FormatIsoDate(y, m, d)[i]) || FormatIsoDate(y, m, d)[i] == '-'
  {
    Pad4Value(y);
    Pad2Value(m);
    Pad2Value(d);
  }

  /** What `strftime('%Y-%m-%d')` writes, `strptime(_, '%Y-%m-%d')` reads back. */
  lemma {:induction false} ParseFormatIsoDate(y: nat, m: nat, d: nat)
    requires ValidDate(y, m, d)
    ensures ParseIsoDate(FormatIsoDate(y, m, d)) == Some(DateKey(y, m, d))
  {
    var ys, ms, ds := Pad4(y), Pad2(m), Pad2(d);
    Pad4Value(y);
    Pad2Value(m);
    Pad2Value(d);
    assert '-' !in ys && '-' !in ms && '-' !in ds;
    assert FormatIsoDate(y, m, d) == ys + ['-'] + (ms + ['-'] + ds);
    SplitHead(ys, '-', ms + ['-'] + ds);
    SplitHead(ms, '-', ds);
    SplitNoSeparator(ds, '-');
    assert Split(FormatIsoDate(y, m, d), '-') == [ys, ms, ds];
  }
}
