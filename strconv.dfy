/**
 * The two pieces of Go's strconv and fmt packages the interpreter relies on
 * for integers: `strconv.ParseInt(s, 0, 64)` applied to the ASCII digit strings
 * the lexer produces for INT tokens, and decimal formatting (`%d`).
 */
module Strconv {
  import opened Wrappers
  import opened MachineInt

  predicate IsDecimal(s: string) {
    forall i :: 0 <= i < |s| ==> '0' <= s[i] <= '9'
  }

  predicate IsOctal(s: string) {
    forall i :: 0 <= i < |s| ==> '0' <= s[i] <= '7'
  }

  function DigitValue(c: char): nat
    requires '0' <= c <= '9'
  {
    c as int - '0' as int
  }

  function DigitChar(d: nat): (c: char)
    requires d < 10
    ensures '0' <= c <= '9' && DigitValue(c) == d
  {
    ('0' as int + d) as char
  }

  /** The number the digits of `s` denote in `base`, most significant digit first. */
  function DigitsValue(s: string, base: nat): nat
    requires IsDecimal(s)
  {
    if |s| == 0 then 0 else DigitsValue(s[..|s| - 1], base) * base + DigitValue(s[|s| - 1])
  }

  /**
   * `strconv.ParseInt(s, 0, 64)` on a string of ASCII digits: base 0 reads a
   * leading "0" as the octal prefix, so "0" is zero, "017" is fifteen and
   * "08" is a syntax error; the empty string is a syntax error; values above
   * the int64 range are a range error. `None` stands for the returned error.
   */
  function ParseInt(s: string): (r: Option<int64>)
    requires IsDecimal(s)
    ensures r.Some? <==> |s| > 0 && (s[0] == '0' ==> IsOctal(s)) && DigitsValue(s, if s[0] == '0' then 8 else 10) <= MAX_INT64
    ensures r.Some? ==> r.value == DigitsValue(s, if s[0] == '0' then 8 else 10)
  {
    if |s| == 0 then None
    else
      var base := if s[0] == '0' then 8 else 10;
      if base == 8 && !IsOctal(s) then None
      else if DigitsValue(s, base) <= MAX_INT64 then Some(DigitsValue(s, base))
      else None
  }

  /** Decimal text of `n`, as `fmt.Sprintf("%d", n)` writes it. */
  function FormatInt(n: int): (r: string)
    ensures n >= 0 ==> |r| > 0 && IsDecimal(r) && (r[0] == '0' ==> n == 0)
    ensures n < 0 ==> |r| > 1 && r[0] == '-' && IsDecimal(r[1..])
    decreases if n < 0 then 1 - n else n
  {
    if n < 0 then "-" + FormatInt(-n)
    else if n < 10 then [DigitChar(n)]
    else FormatInt(n / 10) + [DigitChar(n % 10)]
  }

  /** Reading back the decimal text of a natural number gives the number. */
  lemma {:induction false} FormatIntValue(n: nat)
    ensures DigitsValue(FormatInt(n), 10) == n
    decreases n
  {
    if n >= 10 {
      var r := FormatInt(n);
      assert r[..|r| - 1] == FormatInt(n / 10);
      FormatIntValue(n / 10);
    }
  }

  /** Decimal formatting and base-0 parsing are inverse on the non-negative int64 values. */
  lemma ParseFormattedInt(n: int64)
    requires n >= 0
    ensures ParseInt(FormatInt(n)) == Some(n)
  {
    FormatIntValue(n);
    if n == 0 {
      assert FormatInt(n) == "0" && IsOctal("0");
      assert DigitsValue("0", 8) == 0 by { assert "0"[..0] == ""; }
    } else {
      assert FormatInt(n)[0] != '0';
    }
  }

  /** `%q` on an ASCII digit string: no character needs escaping, so it only adds the quotes. */
  function Quote(s: string): (r: string)
    requires IsDecimal(s)
    ensures |r| == |s| + 2 && r[0] == '"' && r[|r| - 1] == '"' && r[1..|r| - 1] == s
  {
    "\"" + s + "\""
  }

  lemma LeadingZeroIsOctal()
    ensures ParseInt("0") == Some(0)
    ensures ParseInt("017") == Some(15)
    ensures ParseInt("08") == None
  {
    assert !IsOctal("08") by { assert "08"[1] == '8'; }
    assert "017"[..2] == "01" && "01"[..1] == "0" && "0"[..0] == "";
    assert IsOctal("0") && IsOctal("017");
    assert DigitsValue("017", 8) == 15;
  }
}
