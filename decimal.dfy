/** `strconv.Itoa` and `strconv.Atoi` on a 64-bit Go `int`. */
module Decimal {
  import opened Base

  const Int64Min: int := -0x8000_0000_0000_0000
  const Int64Max: int := 0x7FFF_FFFF_FFFF_FFFF

  predicate InInt64(v: int) {
    Int64Min <= v <= Int64Max
  }

  /** Go's `+` on two 64-bit `int`s: the exact sum when it fits, otherwise the
      sum wrapped around by 2^64. */
  function AddInt64(a: int, b: int): (r: int)
    requires InInt64(a) && InInt64(b)
    ensures InInt64(r)
    ensures InInt64(a + b) ==> r == a + b
    ensures a + b > Int64Max ==> r == a + b - 0x1_0000_0000_0000_0000
    ensures a + b < Int64Min ==> r == a + b + 0x1_0000_0000_0000_0000
  {
    if a + b > Int64Max then a + b - 0x1_0000_0000_0000_0000
    else if a + b < Int64Min then a + b + 0x1_0000_0000_0000_0000
    else a + b
  }

  predicate IsDigit(c: char) {
    '0' <= c <= '9'
  }

  predicate AllDigits(s: string) {
    forall i :: 0 <= i < |s| ==> IsDigit(s[i])
  }

  function DigitChar(d: nat): (c: char)
    requires d < 10
    ensures IsDigit(c) && c as int - '0' as int == d
  {
    ('0' as int + d) as char
  }

  /** The decimal digits of `n`, most significant first, without leading zeros. */
  function NatDigits(n: nat): (r: string)
    ensures r != [] && AllDigits(r)
    ensures r[0] == '0' ==> n == 0
  {
    if n < 10 then [DigitChar(n)] else NatDigits(n / 10) + [DigitChar(n % 10)]
  }

  /** `strconv.Itoa`: a minus sign for negative values, then the digits. */
  function Itoa(n: int): string {
    if n < 0 then "-" + NatDigits(-n) else NatDigits(n)
  }

  /** The value of a string of decimal digits. */
  function DigitsValue(d: string): nat
    requires AllDigits(d)
  {
    if d == [] then 0 else DigitsValue(d[..|d| - 1]) * 10 + (d[|d| - 1] as int - '0' as int)
  }

  /** The digits after an optional leading sign. */
  function Unsigned(s: string): string {
    if s != [] && (s[0] == '+' || s[0] == '-') then s[1..] else s
  }

  /** An optional `+` or `-`, then at least one decimal digit and nothing
      else: no blanks, no underscores. Leading zeros are allowed. */
  predicate WellFormed(s: string) {
    Unsigned(s) != [] && AllDigits(Unsigned(s))
  }

  /** The value a well-formed decimal string denotes. */
  function SignedValue(s: string): int
    requires WellFormed(s)
  {
    var m: int := DigitsValue(Unsigned(s));
    if s[0] == '-' then -m else m
  }

  /** `strconv.Atoi`: accepts exactly the well-formed strings whose value fits
      the 64-bit `int`, and yields that value; anything else is an error
      (`None`). */
  function Atoi(s: string): (r: Option<int>)
    ensures r.Some? <==> WellFormed(s) && InInt64(SignedValue(s))
    ensures r.Some? ==> r.value == SignedValue(s) && InInt64(r.value)
  {
    if s == [] then None
    else
      var neg := s[0] == '-';
      var digits := if s[0] == '-' || s[0] == '+' then s[1..] else s;
      if digits == [] || !AllDigits(digits) then None
      else
        var m: int := DigitsValue(digits);
        var v := if neg then -m else m;
        if InInt64(v) then Some(v) else None
  }

  /** A sign, leading zeros, blanks and underscores, as `strconv.Atoi` treats
      them. */
  lemma AtoiCases()
    ensures Atoi("+5") == Some(5) && Atoi("-5") == Some(-5) && Atoi("007") == Some(7)
    ensures Atoi("") == None && Atoi("-") == None && Atoi(" 5") == None && Atoi("1_000") == None
  {
    assert Unsigned("+5") == "5" && Unsigned("-5") == "5" && Unsigned("007") == "007";
    assert " 5"[0] == ' ' && "1_000"[1] == '_';
    assert DigitsValue("00") == 0 && DigitsValue("007") == 7;
  }

  lemma {:induction false} DigitsValueOfNatDigits(n: nat)
    ensures DigitsValue(NatDigits(n)) == n
  {
    if n >= 10 {
      var d := NatDigits(n);
      assert d[..|d| - 1] == NatDigits(n / 10);
      DigitsValueOfNatDigits(n / 10);
    }
  }

  /** `Atoi` reads back every value `Itoa` writes, over the whole 64-bit range. */
  lemma AtoiItoa(n: int)
    requires InInt64(n)
    ensures Atoi(Itoa(n)) == Some(n)
  {
    var s := Itoa(n);
    if n < 0 {
      var d := NatDigits(-n);
      assert s == "-" + d && s[0] == '-';
      assert s[1..] == d;
      DigitsValueOfNatDigits(-n);
      var m: int := DigitsValue(d);
      assert m == -n;
    } else {
      var d := NatDigits(n);
      assert s == d && IsDigit(s[0]);
      DigitsValueOfNatDigits(n);
    }
  }
}
