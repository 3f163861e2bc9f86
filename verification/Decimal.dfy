/** strconv.FormatInt(n, 10) for non-negative n, and strconv.ParseInt(s, 10, 64). */
module Decimal {
  import opened Basics

  const MAX_INT64: int := 0x7fff_ffff_ffff_ffff

  function Digit(d: nat): char
    requires d < 10
  {
    '0' + d as char
  }

  predicate IsDigit(c: char) {
    '0' <= c <= '9'
  }

  function Format(n: nat): string {
    if n < 10 then [Digit(n)] else Format(n / 10) + [Digit(n % 10)]
  }

  predicate AllDigits(s: string) {
    forall c <- s :: IsDigit(c)
  }

  function DigitsValue(s: string): nat
    requires AllDigits(s)
  {
    if s == [] then 0
    else
      assert forall c <- s[..|s| - 1] :: c in s;
      assert s[|s| - 1] in s;
      DigitsValue(s[..|s| - 1]) * 10 + (s[|s| - 1] as int - '0' as int)
  }

  // An optional sign, then at least one digit; the value must fit in 64 bits.
  function ParseInt(s: string): Option<int> {
    var signed := s != [] && (s[0] == '+' || s[0] == '-');
    var digits := if signed then s[1..] else s;
    if digits == [] || !AllDigits(digits) then None
    else
      var magnitude: int := DigitsValue(digits);
      if signed && s[0] == '-' then
        if magnitude > MAX_INT64 + 1 then None else Some(-magnitude)
      else
        if magnitude > MAX_INT64 then None else Some(magnitude)
  }

  lemma {:induction false} FormatDigits(n: nat)
    ensures Format(n) != [] && AllDigits(Format(n)) && DigitsValue(Format(n)) == n
  {
    if n >= 10 {
      FormatDigits(n / 10);
      assert Format(n)[..|Format(n)| - 1] == Format(n / 10);
    } else {
      assert Format(n)[..0] == [];
    }
  }

  lemma ParseFormat(n: nat)
    requires n <= MAX_INT64
    ensures ParseInt(Format(n)) == Some(n)
  {
    FormatDigits(n);
    assert Format(n)[0] in Format(n);
  }

  // Exactly an optional sign and digits are a number, unless it is out of range.
  lemma ParseExactly(s: string)
    ensures var digits := if s != "" && (s[0] == '+' || s[0] == '-') then s[1..] else s;
      && (ParseInt(s).Some? ==> digits != "" && forall c :: c in digits ==> '0' <= c <= '9')
      && (digits != "" && (forall c :: c in digits ==> '0' <= c <= '9') && DigitsValue(digits) <= MAX_INT64 ==>
            ParseInt(s) == Some((if s[0] == '-' then -1 else 1) * DigitsValue(digits)))
      && (digits != "" && (forall c :: c in digits ==> '0' <= c <= '9') && DigitsValue(digits) > MAX_INT64 + 1 ==>
            ParseInt(s).None?)
  {
  }

  lemma FormatInjective(a: nat, b: nat)
    requires Format(a) == Format(b)
    ensures a == b
  {
    FormatDigits(a);
    FormatDigits(b);
  }

  lemma FormatHasNoDash(n: nat)
    ensures '-' !in Format(n)
  {
    FormatDigits(n);
  }

  // Parsing is not injective: other spellings of a part number are accepted too.
  lemma OtherSpellingsParse()
    ensures ParseInt("01") == Some(1) && ParseInt("+1") == Some(1)
    ensures Format(1) == "1"
  {
    assert "01"[..1] == "0" && "0"[..0] == "" && "1"[..0] == "";
    assert "+1"[1..] == "1";
    assert DigitsValue("0") == 0 && DigitsValue("1") == 1;
    assert DigitsValue("01") == 1;
  }
}
