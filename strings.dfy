/**
 * The pieces of the C++ standard library's string handling that the client
 * relies on: `std::to_string`, `std::stoi`, `std::stof`, `std::string::find`,
 * `isspace` in the "C" locale, and the unsigned wrap-around of `size_t`.
 */
module Strings {
  import opened Wrappers

  const INT_MIN: int := -0x8000_0000
  const INT_MAX: int := 0x7FFF_FFFF
  const SIZE_T_MODULUS: int := 0x1_0000_0000_0000_0000

  /** `std::size_t` on a 64-bit target. */
  type SizeT = x: int | 0 <= x < SIZE_T_MODULUS

  /** The value an integer takes once it is converted to `size_t` (wraps modulo 2^64). */
  function ToSizeT(x: int): (r: SizeT)
    ensures 0 <= x < SIZE_T_MODULUS ==> r == x
    ensures (r - x) % SIZE_T_MODULUS == 0
  {
    x % SIZE_T_MODULUS
  }

  /** `isspace` in the "C" locale: space, tab, newline, vertical tab, form feed, carriage return. */
  predicate IsSpace(c: char) {
    c == ' ' || c == '\t' || c == '\n' || c == '\U{000B}' || c == '\U{000C}' || c == '\r'
  }

  predicate IsDigit(c: char) {
    '0' <= c <= '9'
  }

  predicate AllDigits(s: string) {
    forall i :: 0 <= i < |s| ==> IsDigit(s[i])
  }

  function DigitChar(d: nat): (c: char)
    requires d < 10
    ensures IsDigit(c)
  {
    ('0' as int + d) as char
  }

  function DigitValue(c: char): (d: nat)
    requires IsDigit(c)
    ensures d < 10 && DigitChar(d) == c
  {
    c as int - '0' as int
  }

  function Pow10(n: nat): (p: nat)
    ensures p >= 1
  {
    if n == 0 then 1 else 10 * Pow10(n - 1)
  }

  /** `std::to_string` of a non-negative integer: its decimal digits, no leading zeros. */
  function NatToString(n: nat): (s: string)
    ensures |s| > 0 && AllDigits(s)
    ensures |s| > 1 ==> s[0] != '0'
  {
    if n < 10 then [DigitChar(n)] else NatToString(n / 10) + [DigitChar(n % 10)]
  }

  /** `std::to_string` of a signed integer. */
  function IntToString(i: int): (s: string)
    ensures |s| > 0
    ensures i < 0 <==> s[0] == '-'
  {
    if i < 0 then "-" + NatToString(-i) else NatToString(i)
  }

  /** The number a string of decimal digits denotes. */
  function DigitsValue(s: string): nat
    requires AllDigits(s)
  {
    if s == [] then 0 else 10 * DigitsValue(s[..|s| - 1]) + DigitValue(s[|s| - 1])
  }

  lemma {:induction false} DigitsValueOfNatToString(n: nat)
    ensures DigitsValue(NatToString(n)) == n
  {
    if n >= 10 {
      var s := NatToString(n);
      assert s[..|s| - 1] == NatToString(n / 10);
      DigitsValueOfNatToString(n / 10);
    }
  }

  /** Two numbers print the same only if they are equal. */
  lemma NatToStringInjective(m: nat, n: nat)
    requires NatToString(m) == NatToString(n)
    ensures m == n
  {
    DigitsValueOfNatToString(m);
    DigitsValueOfNatToString(n);
  }

  /** The first index at or after `from` that does not hold white space (|s| when there is none). */
  function SkipSpace(s: string, from: nat): (k: nat)
    requires from <= |s|
    ensures from <= k <= |s|
    ensures forall i :: from <= i < k ==> IsSpace(s[i])
    ensures k < |s| ==> !IsSpace(s[k])
    decreases |s| - from
  {
    if from < |s| && IsSpace(s[from]) then SkipSpace(s, from + 1) else from
  }

  /** The end of the run of decimal digits that starts at `from`. */
  function DigitRunEnd(s: string, from: nat): (k: nat)
    requires from <= |s|
    ensures from <= k <= |s|
    ensures AllDigits(s[from..k])
    ensures k < |s| ==> !IsDigit(s[k])
    decreases |s| - from
  {
    if from < |s| && IsDigit(s[from]) then
      var k := DigitRunEnd(s, from + 1);
      assert s[from..k] == [s[from]] + s[from + 1..k];
      k
    else from
  }

  /** Why `std::stoi` or `std::stof` throws. */
  datatype NumberError = InvalidArgument | OutOfRange

  /**
   * `std::stoi`: skips leading white space, reads an optional sign and the
   * longest run of digits after it, ignores whatever follows; throws
   * `invalid_argument` when there are no digits and `out_of_range` when the
   * value does not fit a 32-bit `int`.
   */
  function Stoi(s: string): (r: Result<int, NumberError>)
    ensures r.Success? ==> INT_MIN <= r.value <= INT_MAX
  {
    var i := SkipSpace(s, 0);
    var signed := i < |s| && (s[i] == '-' || s[i] == '+');
    var j := if signed then i + 1 else i;
    var k := DigitRunEnd(s, j);
    if k == j then Failure(InvalidArgument)
    else
      var v := DigitsValue(s[j..k]);
      var x: int := if signed && s[i] == '-' then -(v as int) else v;
      if INT_MIN <= x <= INT_MAX then Success(x) else Failure(OutOfRange)
  }

  /** `std::stoi` reads back what `std::to_string` printed, whatever non-digit text follows it. */
  lemma StoiOfIntToString(i: int, rest: string)
    requires INT_MIN <= i <= INT_MAX
    requires rest == [] || !IsDigit(rest[0])
    ensures Stoi(IntToString(i) + rest) == Success(i)
  {
    var n: nat := if i < 0 then -i else i;
    var d := NatToString(n);
    var s := IntToString(i) + rest;
    var j := if i < 0 then 1 else 0;
    assert s[j..j + |d|] == d;
    assert SkipSpace(s, 0) == 0;
    DigitRunEndOver(s, j, d);
    DigitsValueOfNatToString(n);
  }

  lemma DigitRunEndOver(s: string, j: nat, d: string)
    requires j + |d| <= |s| && s[j..j + |d|] == d && AllDigits(d)
    requires j + |d| < |s| ==> !IsDigit(s[j + |d|])
    ensures DigitRunEnd(s, j) == j + |d|
    decreases |d|
  {
    if d != [] {
      assert s[j] == d[0];
      assert s[j + 1..j + |d|] == d[1..];
      DigitRunEndOver(s, j + 1, d[1..]);
    }
  }

  /**
   * The least magnitude that rounding to the nearest `float` (ties to even)
   * takes to infinity: FLT_MAX = 2^128 - 2^104 plus half a unit in its last
   * place, that is 2^128 - 2^103.
   */
  const FLOAT_OVERFLOW: real := 340282356779733661637539395458142568448.0

  /** FLT_MIN, the least positive normal `float`: 2^-126. */
  const FLOAT_MIN_NORMAL: real := 1.0 / 85070591730234615865843651857942052864.0

  /**
   * The values `strtof` returns without setting ERANGE: zero, or a magnitude
   * from the least normal `float` up to (not including) the overflow bound.
   */
  predicate InFloatRange(v: real) {
    && -FLOAT_OVERFLOW < v < FLOAT_OVERFLOW
    && (v == 0.0 || v >= FLOAT_MIN_NORMAL || v <= -FLOAT_MIN_NORMAL)
  }

  /**
   * `std::stof`, for plain decimal text: leading white space, an optional
   * sign, digits with at most one decimal point, at least one digit; text
   * after the number is ignored. It throws `invalid_argument` when there is
   * no number and `out_of_range` when `strtof` reports ERANGE, that is when
   * the value overflows `float` or is a non-zero value below its normal range.
   */
  function Stof(s: string): (r: Result<real, NumberError>)
    ensures r.Success? ==> InFloatRange(r.value)
    ensures AllDigits(s) && s != [] ==>
              r == (if DigitsValue(s) as real < FLOAT_OVERFLOW then Success(DigitsValue(s) as real) else Failure(OutOfRange))
  {
    var i := SkipSpace(s, 0);
    var signed := i < |s| && (s[i] == '-' || s[i] == '+');
    var j := if signed then i + 1 else i;
    var k := DigitRunEnd(s, j);
    assert AllDigits(s) && s != [] ==> i == 0 && !signed && k == |s| && s[j..k] == s by {
      if AllDigits(s) && s != [] {
        assert !IsSpace(s[0]);
        DigitRunEndOver(s, 0, s);
      }
    }
    var dot := k < |s| && s[k] == '.';
    var m := if dot then DigitRunEnd(s, k + 1) else k;
    if k == j && (!dot || m == k + 1) then Failure(InvalidArgument)
    else
      var whole := DigitsValue(s[j..k]) as real;
      var frac := if dot then DigitsValue(s[k + 1..m]) as real / Pow10(m - k - 1) as real else 0.0;
      var v := if signed && s[i] == '-' then -(whole + frac) else whole + frac;
      if InFloatRange(v) then Success(v) else Failure(OutOfRange)
  }

  /**
   * `std::stof` reads a printed whole number back as that number, and throws
   * `out_of_range` once the number is too large for a `float`.
   */
  lemma StofOfNatToString(n: nat)
    ensures Stof(NatToString(n)) == if (n as real) < FLOAT_OVERFLOW then Success(n as real) else Failure(OutOfRange)
  {
    var s := NatToString(n);
    assert SkipSpace(s, 0) == 0;
    assert s[0..|s|] == s;
    DigitRunEndOver(s, 0, s);
    DigitsValueOfNatToString(n);
  }

  /** Whether `pat` occurs in `s` starting at index `q`. */
  predicate OccursAt(s: string, pat: string, q: nat) {
    q + |pat| <= |s| && s[q..q + |pat|] == pat
  }

  /** `s.find(pat, from)`: the first position at or after `from` where `pat` occurs (None is `npos`). */
  function Find(s: string, pat: string, from: nat): (r: Option<nat>)
    ensures r.Some? ==> from <= r.value && OccursAt(s, pat, r.value)
    ensures r.Some? ==> forall q :: from <= q < r.value ==> !OccursAt(s, pat, q)
    ensures r.None? ==> forall q :: from <= q ==> !OccursAt(s, pat, q)
    decreases |s| - from
  {
    if from + |pat| > |s| then None
    else if s[from..from + |pat|] == pat then Some(from)
    else Find(s, pat, from + 1)
  }

  /** `s.find(c)`: the first index holding `c`. */
  function FindChar(s: string, c: char): (r: Option<nat>)
    ensures r.Some? ==> r.value < |s| && s[r.value] == c
    ensures r.Some? ==> forall q :: 0 <= q < r.value ==> s[q] != c
    ensures r.None? <==> forall q :: 0 <= q < |s| ==> s[q] != c
  {
    var r := Find(s, [c], 0);
    assert forall q :: 0 <= q < |s| ==> (OccursAt(s, [c], q) <==> s[q] == c) by {
      forall q | 0 <= q < |s| ensures OccursAt(s, [c], q) <==> s[q] == c {
        assert s[q..q + 1] == [s[q]];
      }
    }
    r
  }

  /** An index holding `c` with no `c` before it is what `find` returns. */
  lemma FindCharAt(s: string, c: char, j: nat)
    requires j < |s| && s[j] == c
    requires forall q :: 0 <= q < j ==> s[q] != c
    ensures FindChar(s, c) == Some(j)
  {
  }
}
