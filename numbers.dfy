/** `int.Parse(string)` under the invariant sign symbols: optional white
    space, an optional sign, one or more ASCII digits, optional white space,
    and a value that fits a 32-bit signed integer. */
module Numbers {
  import opened Wrappers

  const Int32Min: int := -0x8000_0000
  const Int32Max: int := 0x7FFF_FFFF

  predicate InInt32(n: int) {
    Int32Min <= n <= Int32Max
  }

  /** `int.Parse` throws FormatException for malformed text and
      OverflowException for a well-formed literal outside the Int32 range. */
  datatype ParseError = FormatError | OverflowError

  predicate IsDigit(c: char) {
    '0' <= c <= '9'
  }

  /** The white space `NumberStyles.AllowLeadingWhite` and
      `AllowTrailingWhite` accept: U+0009 to U+000D and U+0020. */
  predicate IsNumberSpace(c: char) {
    c == ' ' || '\t' <= c <= '\r'
  }

  predicate AllDigits(s: string) {
    forall i :: 0 <= i < |s| ==> IsDigit(s[i])
  }

  /** Value of a decimal digit string, most significant digit first. */
  function DigitsValue(ds: string): nat
    requires AllDigits(ds)
  {
    if ds == [] then 0
    else DigitsValue(ds[..|ds| - 1]) * 10 + (ds[|ds| - 1] - '0') as int
  }

  /** `s` without the number white space at either end. */
  function StripSpace(s: string): (r: string)
    ensures |r| <= |s|
    ensures r == [] || (!IsNumberSpace(r[0]) && !IsNumberSpace(r[|r| - 1]))
    decreases |s|
  {
    if |s| > 0 && IsNumberSpace(s[0]) then StripSpace(s[1..])
    else if |s| > 0 && IsNumberSpace(s[|s| - 1]) then StripSpace(s[..|s| - 1])
    else s
  }

  /** An optional sign followed by at least one digit. */
  predicate IsIntegerLiteral(t: string) {
    if |t| > 0 && (t[0] == '-' || t[0] == '+') then |t| > 1 && AllDigits(t[1..])
    else |t| > 0 && AllDigits(t)
  }

  function LiteralValue(t: string): int
    requires IsIntegerLiteral(t)
  {
    if t[0] == '-' then -(DigitsValue(t[1..]) as int)
    else if t[0] == '+' then DigitsValue(t[1..])
    else DigitsValue(t)
  }

  /** `int.Parse(s)`. */
  function ParseInt32(s: string): (r: Result<int, ParseError>)
    ensures r.Ok? ==> InInt32(r.value)
    ensures r.Ok? <==> IsIntegerLiteral(StripSpace(s)) && InInt32(LiteralValue(StripSpace(s)))
    ensures r.Ok? ==> r.value == LiteralValue(StripSpace(s))
    ensures r == Err(OverflowError) <==> IsIntegerLiteral(StripSpace(s)) && !InInt32(LiteralValue(StripSpace(s)))
  {
    var t := StripSpace(s);
    if !IsIntegerLiteral(t) then Err(FormatError)
    else
      var v := LiteralValue(t);
      if InInt32(v) then Ok(v) else Err(OverflowError)
  }

  /** Decimal digits of `n`, no leading zeros. */
  function ShowNat(n: nat): (ds: string)
    ensures |ds| > 0 && AllDigits(ds)
    ensures DigitsValue(ds) == n
  {
    var last := ['0' + (n % 10) as char];
    if n < 10 then
      assert DigitsValue(last) == DigitsValue([]) * 10 + n;
      last
    else
      var front := ShowNat(n / 10);
      var ds := front + last;
      assert ds[..|ds| - 1] == front;
      ds
  }

  /** `n.ToString()` under the invariant culture. */
  function Show(n: int): (s: string)
    ensures IsIntegerLiteral(s)
  {
    if n < 0 then "-" + ShowNat(-n) else ShowNat(n)
  }

  /** What `Show` prints is a bare literal denoting the number. */
  lemma ShowLiteral(n: int)
    ensures StripSpace(Show(n)) == Show(n)
    ensures LiteralValue(Show(n)) == n
  {
    var s := Show(n);
    assert StripSpace(s) == s by {
      assert !IsNumberSpace(s[0]);
      assert !IsNumberSpace(s[|s| - 1]) by {
        if n < 0 {
          assert s[|s| - 1] == ShowNat(-n)[|ShowNat(-n)| - 1];
        }
      }
    }
    if n < 0 {
      assert s[1..] == ShowNat(-n);
    }
  }

  /** Parsing what `Show` prints gives the number back, for every Int32. */
  lemma ParseShow(n: int)
    requires InInt32(n)
    ensures ParseInt32(Show(n)) == Ok(n)
  {
    ShowLiteral(n);
  }

  /** A number outside the 32-bit range, written out, is refused as an
      overflow rather than as a malformed literal. */
  lemma ParseShowOverflow(n: int)
    requires !InInt32(n)
    ensures ParseInt32(Show(n)) == Err(OverflowError)
  {
    ShowLiteral(n);
  }

  /** Surrounding white space does not change what `int.Parse` reads. */
  lemma {:induction false} ParsePadded(s: string, c: char)
    requires IsNumberSpace(c)
    ensures ParseInt32([c] + s) == ParseInt32(s)
    ensures ParseInt32(s + [c]) == ParseInt32(s)
  {
    StripSpaceCons(s, c);
    StripSpaceSnoc(s, c);
  }

  lemma {:induction false} StripSpaceCons(s: string, c: char)
    requires IsNumberSpace(c)
    ensures StripSpace([c] + s) == StripSpace(s)
  {
    assert ([c] + s)[1..] == s;
  }

  lemma {:induction false} StripSpaceSnoc(s: string, c: char)
    requires IsNumberSpace(c)
    ensures StripSpace(s + [c]) == StripSpace(s)
    decreases |s|
  {
    var t := s + [c];
    if |s| > 0 && IsNumberSpace(s[0]) {
      assert t[1..] == s[1..] + [c];
      StripSpaceSnoc(s[1..], c);
    } else {
      assert t[..|t| - 1] == s;
      if |s| == 0 {
      } else {
        assert t[0] == s[0];
      }
    }
  }
}
