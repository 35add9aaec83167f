/** Calendar dates and `DateTime.ParseExact(s, "dd.MM.yyyy",
    CultureInfo.InvariantCulture)`: exactly two day digits, a dot, two month
    digits, a dot and four year digits, naming a day of the proleptic
    Gregorian calendar between the years 1 and 9999. */
module Dates {
  import opened Wrappers

  datatype Date = Date(year: int, month: int, day: int)

  predicate IsLeapYear(y: int) {
    y % 4 == 0 && (y % 100 != 0 || y % 400 == 0)
  }

  function DaysInMonth(y: int, m: int): (n: int)
    requires 1 <= m <= 12
    ensures 28 <= n <= 31
  {
    if m == 2 then (if IsLeapYear(y) then 29 else 28)
    else if m == 4 || m == 6 || m == 9 || m == 11 then 30
    else 31
  }

  /** A day `DateTime` can represent. */
  predicate IsValid(d: Date) {
    && 1 <= d.year <= 9999
    && 1 <= d.month <= 12
    && 1 <= d.day <= DaysInMonth(d.year, d.month)
  }

  /** `a < b` on `DateTime` values at midnight. */
  predicate Before(a: Date, b: Date) {
    || a.year < b.year
    || (a.year == b.year && a.month < b.month)
    || (a.year == b.year && a.month == b.month && a.day < b.day)
  }

  /** `a <= b`. */
  predicate NotAfter(a: Date, b: Date) {
    Before(a, b) || a == b
  }

  predicate IsDigit(c: char) {
    '0' <= c <= '9'
  }

  function DigitValue(c: char): int {
    c as int - '0' as int
  }

  function Digit(n: int): char
    requires 0 <= n <= 9
  {
    '0' + n as char
  }

  /** `n` as exactly `width` decimal digits, zero-padded. */
  function Pad(n: nat, width: nat): (s: string)
    requires n < Pow10(width)
    ensures |s| == width
    ensures forall i :: 0 <= i < |s| ==> IsDigit(s[i])
    ensures Digits(s) == n
  {
    if width == 0 then []
    else
      var front := Pad(n / 10, width - 1);
      var s := front + [Digit(n % 10)];
      assert s[..|s| - 1] == front;
      s
  }

  function Pow10(k: nat): (p: nat)
    ensures p >= 1
  {
    if k == 0 then 1 else 10 * Pow10(k - 1)
  }

  /** Value of a string of decimal digits. */
  function Digits(s: string): int {
    if s == [] then 0 else Digits(s[..|s| - 1]) * 10 + DigitValue(s[|s| - 1])
  }

  /** `d.ToString("dd.MM.yyyy")`. */
  function Format(d: Date): (s: string)
    requires IsValid(d)
    ensures |s| == 10 && s[2] == '.' && s[5] == '.'
    ensures forall i :: 0 <= i < |s| ==> IsDigit(s[i]) || s[i] == '.'
    ensures IsDigit(s[0]) && IsDigit(s[9])
  {
    var dd, mm, yyyy := Pad(d.day, 2), Pad(d.month, 2), Pad(d.year, 4);
    var s := dd + "." + mm + "." + yyyy;
    assert forall i :: 0 <= i < 2 ==> s[i] == dd[i];
    assert forall i :: 3 <= i < 5 ==> s[i] == mm[i - 3];
    assert forall i :: 6 <= i < 10 ==> s[i] == yyyy[i - 6];
    s
  }

  predicate DigitsAt(s: string, lo: nat, hi: nat)
    requires lo <= hi <= |s|
  {
    forall i :: lo <= i < hi ==> IsDigit(s[i])
  }

  /** `DateTime.ParseExact(s, "dd.MM.yyyy", InvariantCulture)`; `None`
      stands for the FormatException it throws. */
  function ParseExact(s: string): (r: Option<Date>)
    ensures r.Some? ==> IsValid(r.value) && Format(r.value) == s
  {
    if |s| != 10 || s[2] != '.' || s[5] != '.'
       || !DigitsAt(s, 0, 2) || !DigitsAt(s, 3, 5) || !DigitsAt(s, 6, 10) then
      Option.None
    else
      var d := Date(Digits(s[6..10]), Digits(s[3..5]), Digits(s[0..2]));
      if IsValid(d) then
        FormatOfFields(s, d);
        Some(d)
      else Option.None
  }

  /** A valid date read off the three digit fields of `s` formats back
      to `s`. */
  lemma FormatOfFields(s: string, d: Date)
    requires |s| == 10 && s[2] == '.' && s[5] == '.'
    requires DigitsAt(s, 0, 2) && DigitsAt(s, 3, 5) && DigitsAt(s, 6, 10)
    requires d == Date(Digits(s[6..10]), Digits(s[3..5]), Digits(s[0..2])) && IsValid(d)
    ensures Format(d) == s
  {
    assert Pow10(1) == 10 && Pow10(2) == 100;
    assert Pow10(3) == 1000 && Pow10(4) == 10000;
    FieldFormats(s, 0, 2, d.day);
    FieldFormats(s, 3, 5, d.month);
    FieldFormats(s, 6, 10, d.year);
    assert s == s[0..2] + "." + s[3..5] + "." + s[6..10];
  }

  /** The digit field `s[lo..hi]` is its own value zero-padded. */
  lemma FieldFormats(s: string, lo: nat, hi: nat, n: nat)
    requires lo <= hi <= |s| && DigitsAt(s, lo, hi)
    requires n == Digits(s[lo..hi]) && n < Pow10(hi - lo)
    ensures Pad(n, hi - lo) == s[lo..hi]
  {
    var f := s[lo..hi];
    forall i | 0 <= i < |f|
      ensures IsDigit(f[i])
    {
      assert f[i] == s[lo + i];
    }
    FormatDigits(f, n);
  }

  /** Zero-padding a digit string's own value gives the string back. */
  lemma {:induction false} FormatDigits(s: string, n: nat)
    requires forall i :: 0 <= i < |s| ==> IsDigit(s[i])
    requires Digits(s) == n && n < Pow10(|s|)
    ensures Pad(n, |s|) == s
    decreases |s|
  {
    if s != [] {
      var front := s[..|s| - 1];
      var last := DigitValue(s[|s| - 1]);
      assert n == Digits(front) * 10 + last;
      assert n / 10 == Digits(front) && n % 10 == last;
      FormatDigits(front, Digits(front));
      assert Digit(last) == s[|s| - 1];
      assert front + [s[|s| - 1]] == s;
    }
  }

  /** Every valid date survives formatting and parsing. */
  lemma ParseFormat(d: Date)
    requires IsValid(d)
    ensures ParseExact(Format(d)) == Some(d)
  {
    var s := Format(d);
    assert s[0..2] == Pad(d.day, 2);
    assert s[3..5] == Pad(d.month, 2);
    assert s[6..10] == Pad(d.year, 4);
  }
}
