/** Fixed-width unsigned integers and the fixed-point `Decimal` of cosmwasm-std, and Rust's
    `str::parse::<u128>` together with the decimal rendering it inverts. */
module Numbers {
  import opened Wrappers
  import opened Errors

  const U64_LIMIT: nat := 0x1_0000_0000_0000_0000
  const U128_LIMIT: nat := 0x1_0000_0000_0000_0000_0000_0000_0000_0000

  type Byte = n: nat | n < 256
  type U64 = n: nat | n < U64_LIMIT
  /** `Uint128` / `u128`. */
  type Uint128 = n: nat | n < U128_LIMIT

  /** `Decimal` counts units of 10^-18 in a `Uint128`. */
  const DECIMAL_FRACTIONAL: nat := 1_000_000_000_000_000_000

  datatype Decimal = Decimal(atomics: Uint128)

  /** `Uint128 + Uint128`, which panics on overflow. */
  function AddU128(a: Uint128, b: Uint128): (r: Result<Uint128, PanicReason>)
    ensures r.Success? <==> a + b < U128_LIMIT
    ensures r.Success? ==> r.value == a + b
    ensures r.Failure? ==> r.error == AddOverflow
  {
    if a + b < U128_LIMIT then Success(a + b) else Failure(AddOverflow)
  }

  /** `Decimal::from_ratio(numerator, denominator)`: the fixed-point value of the quotient,
      rounded down; it panics on a zero denominator and when the value does not fit. */
  function FromRatio(numerator: Uint128, denominator: Uint128): (r: Result<Decimal, PanicReason>)
    ensures denominator == 0 <==> r == Failure(DivideByZero)
    ensures denominator != 0 ==>
              (r.Success? <==> numerator * DECIMAL_FRACTIONAL < U128_LIMIT * denominator)
    ensures denominator != 0 && r.Failure? ==> r.error == MultiplicationOverflow
    ensures r.Success? ==>
              r.value.atomics * denominator <= numerator * DECIMAL_FRACTIONAL < (r.value.atomics + 1) * denominator
  {
    if denominator == 0 then Failure(DivideByZero)
    else
      var q := numerator * DECIMAL_FRACTIONAL / denominator;
      FloorQuotient(numerator * DECIMAL_FRACTIONAL, denominator, q);
      if q < U128_LIMIT then Success(Decimal(q)) else Failure(MultiplicationOverflow)
  }

  /** The quotient `q` of `n` by `d` is the number with `q * d <= n < (q + 1) * d`, and it fits
      below the limit exactly when `n < U128_LIMIT * d`. */
  lemma FloorQuotient(n: nat, d: nat, q: nat)
    requires d > 0 && q == n / d
    ensures q * d <= n < (q + 1) * d
    ensures q < U128_LIMIT <==> n < U128_LIMIT * d
  {
    assert n == q * d + n % d;
    if q < U128_LIMIT {
      MulMonotone(q + 1, U128_LIMIT, d);
    } else {
      MulMonotone(U128_LIMIT, q, d);
    }
  }

  lemma MulMonotone(a: nat, b: nat, d: nat)
    requires a <= b
    ensures a * d <= b * d
  {
  }

  predicate IsDigit(c: char) { '0' <= c <= '9' }

  predicate AllDigits(s: string) { forall i | 0 <= i < |s| :: IsDigit(s[i]) }

  function DigitValue(c: char): nat
    requires IsDigit(c)
  {
    c as int - '0' as int
  }

  function DigitChar(d: nat): (c: char)
    requires d < 10
    ensures IsDigit(c) && DigitValue(c) == d
  {
    ('0' as int + d) as char
  }

  /** The value of a string of decimal digits, most significant first. */
  function DigitsValue(s: string): nat
    requires AllDigits(s)
  {
    if s == [] then 0 else DigitsValue(s[..|s| - 1]) * 10 + DigitValue(s[|s| - 1])
  }

  /** `u128::from_str`: an optional `+`, then one or more ASCII digits whose value fits in
      128 bits. A lone `+`, a `-`, any other character and overflow are all errors. */
  function ParseU128(s: string): (r: Option<Uint128>)
  {
    var digits := if |s| > 0 && s[0] == '+' then s[1..] else s;
    if digits == [] || !AllDigits(digits) then None
    else if DigitsValue(digits) < U128_LIMIT then Some(DigitsValue(digits))
    else None
  }

  /** The decimal rendering of `n` that `format!("{}", n)` produces: no sign, no leading zeros. */
  function Render(n: nat): (s: string)
    ensures |s| > 0 && AllDigits(s) && DigitsValue(s) == n
    ensures |s| > 1 ==> s[0] != '0'
    decreases n
  {
    if n < 10 then [DigitChar(n)]
    else
      var prefix := Render(n / 10);
      var s := prefix + [DigitChar(n % 10)];
      assert s[..|s| - 1] == prefix;
      s
  }

  /** Parsing inverts rendering on the whole `u128` range and rejects every larger number. */
  lemma {:induction false} ParseRendered(n: nat)
    ensures ParseU128(Render(n)) == if n < U128_LIMIT then Some(n) else None
  {
    var s := Render(n);
    assert s[0] != '+' by { assert IsDigit(s[0]); }
  }

  /** Signs, empty strings and non-digits are rejected. */
  lemma ParseRejectsMalformed()
    ensures ParseU128("") == None
    ensures ParseU128("+") == None
    ensures ParseU128("-1") == None
    ensures ParseU128("1_000") == None
    ensures ParseU128("+42") == Some(42)
  {
    assert ParseU128("+42") == Some(42) by {
      assert "+42"[1..] == "42";
      assert "42"[..1] == "4" && "4"[..0] == "";
      assert DigitsValue("4") == 4;
      assert DigitsValue("42") == 42;
    }
  }
}
