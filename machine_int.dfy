/**
 * Go's 64-bit integers on top of Dafny's unbounded `int`: the int64 range,
 * two's-complement wrap-around, the reinterpretation of an int64 as a uint64,
 * and Go's division, which truncates toward zero.
 */
module MachineInt {

  const TWO_TO_THE_63: int := 0x8000_0000_0000_0000
  const TWO_TO_THE_64: int := 0x1_0000_0000_0000_0000
  const MIN_INT64: int := -TWO_TO_THE_63
  const MAX_INT64: int := TWO_TO_THE_63 - 1

  type int64 = x: int | MIN_INT64 <= x <= MAX_INT64
  type uint64 = x: int | 0 <= x < TWO_TO_THE_64

  /** The int64 that a Go computation producing the exact value `x` holds. */
  function Wrap(x: int): (r: int64)
    ensures (r - x) % TWO_TO_THE_64 == 0
    ensures MIN_INT64 <= x <= MAX_INT64 ==> r == x
  {
    var m := x % TWO_TO_THE_64;
    if m <= MAX_INT64 then m else m - TWO_TO_THE_64
  }

  /** `uint64(v)` in Go: the same 64 bits read as an unsigned number. */
  function ToUnsigned(v: int64): (r: uint64)
    ensures (r - v) % TWO_TO_THE_64 == 0
  {
    if v < 0 then v + TWO_TO_THE_64 else v
  }

  /** Reinterpreting the bits loses nothing: distinct int64 values stay distinct. */
  lemma ToUnsignedInjective(a: int64, b: int64)
    ensures ToUnsigned(a) == ToUnsigned(b) <==> a == b
  {
  }

  function Abs(x: int): nat {
    if x < 0 then -x else x
  }

  /**
   * Go's `a / b`: the quotient rounded toward zero. The remainder that goes
   * with it is smaller than the divisor in magnitude and never has the
   * opposite sign of the dividend.
   */
  function TruncatedDivision(a: int, b: int): (q: int)
    requires b != 0
    ensures Abs(a - q * b) < Abs(b)
    ensures a - q * b == 0 || (a - q * b < 0 <==> a < 0)
  {
    var d := Abs(a) / Abs(b);
    DivisionOfMagnitudes(Abs(a), Abs(b));
    var q := if (a < 0) == (b < 0) then d else -d;
    RemainderOfMagnitudes(a, b, q);
    q
  }

  /** Dividing the magnitudes and giving the quotient the sign of a / b leaves the remainder the sign of a. */
  lemma RemainderOfMagnitudes(a: int, b: int, q: int)
    requires b != 0
    requires q == if (a < 0) == (b < 0) then Abs(a) / Abs(b) else -(Abs(a) / Abs(b))
    ensures var r := Abs(a) - (Abs(a) / Abs(b)) * Abs(b);
      a - q * b == if a < 0 then -r else r
  {
    var d := Abs(a) / Abs(b);
    if b < 0 {
      assert d * b == -(d * Abs(b));
    } else {
      assert d * b == d * Abs(b);
    }
  }

  lemma DivisionOfMagnitudes(n: nat, m: nat)
    requires m > 0
    ensures 0 <= n - (n / m) * m < m
  {
  }

  /** The quotient is no larger in magnitude than the dividend. */
  lemma QuotientMagnitude(a: int, b: int)
    requires b != 0
    ensures Abs(TruncatedDivision(a, b)) <= Abs(a)
  {
    QuotientBound(Abs(a), Abs(b));
  }

  /** A quotient of naturals is at most the dividend. */
  lemma QuotientBound(n: nat, m: nat)
    requires m > 0
    ensures n / m <= n
  {
    var q := n / m;
    assert q * m <= n;
    MulMonotone(q, m);
  }

  lemma {:induction false} MulMonotone(q: nat, m: nat)
    requires m > 0
    ensures q <= q * m
  {
    if m > 1 {
      MulMonotone(q, m - 1);
      assert q * m == q * (m - 1) + q;
    }
  }

  /** Go's int64 division: truncated, then wrapped (only MIN_INT64 / -1 leaves the range). */
  function Div64(a: int64, b: int64): (q: int64)
    requires b != 0
    ensures a != MIN_INT64 || b != -1 ==> q == TruncatedDivision(a, b)
    ensures a == MIN_INT64 && b == -1 ==> q == MIN_INT64
  {
    QuotientMagnitude(a, b);
    Wrap(TruncatedDivision(a, b))
  }

  lemma DivisionTruncatesTowardZero()
    ensures Div64(7, 2) == 3 && Div64(-7, 2) == -3 && Div64(7, -2) == -3 && Div64(-7, -2) == 3
    ensures Div64(MIN_INT64, -1) == MIN_INT64
  {
    assert TruncatedDivision(-7, 2) == -3;
    assert TruncatedDivision(7, -2) == -3;
    assert TruncatedDivision(MIN_INT64, -1) == TWO_TO_THE_63;
  }
}
