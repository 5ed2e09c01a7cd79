/**
  Rust's `u64::from_str` (`str::parse::<u64>()`), which the webhook URL decoder
  uses on the id segment: an optional leading `+`, then one or more decimal
  digits, scanned left to right; a non-digit stops the scan with
  `InvalidDigit`, a value that no longer fits 64 bits stops it with
  `Overflow`, and no digits at all is `Empty`.
*/
module ParseInt {
  import opened Common

  /**
    The kind carried by Rust's `ParseIntError` for an unsigned target, under
    the names of the standard library of the time (later releases call
    `Overflow` `PosOverflow`).
  */
  datatype IntErrorKind = Empty | InvalidDigit | Overflow

  predicate IsDigit(c: char) { '0' <= c <= '9' }

  predicate AllDigits(s: string) { forall i :: 0 <= i < |s| ==> IsDigit(s[i]) }

  function DigitValue(c: char): (d: nat)
    requires IsDigit(c)
    ensures d < 10
  { c as int - '0' as int }

  function Pow10(n: nat): (p: nat)
    ensures p >= 1
  { if n == 0 then 1 else 10 * Pow10(n - 1) }

  /** The number a digit string denotes, most significant digit first. */
  function DecimalValue(s: string): nat
    requires AllDigits(s)
  {
    if s == [] then 0 else DigitValue(s[0]) * Pow10(|s| - 1) + DecimalValue(s[1..])
  }

  /** The digits proper: a single leading `+` is accepted and dropped. */
  function StripPlus(s: string): string
  {
    if |s| > 0 && s[0] == '+' then s[1..] else s
  }

  /** The strings `u64::from_str` accepts. */
  predicate IsU64Literal(s: string)
  {
    var digits := StripPlus(s);
    |digits| > 0 && AllDigits(digits) && DecimalValue(digits) < U64_LIMIT
  }

  /** The digit loop of `from_str_radix`, with `acc` the value read so far. */
  function ParseDigits(digits: string, acc: uint64): (r: Result<uint64, IntErrorKind>)
    ensures r != Err(Empty)
    decreases |digits|
  {
    if digits == [] then Ok(acc)
    else if !IsDigit(digits[0]) then Err(InvalidDigit)
    else if acc * 10 >= U64_LIMIT then Err(Overflow)
    else if acc * 10 + DigitValue(digits[0]) >= U64_LIMIT then Err(Overflow)
    else ParseDigits(digits[1..], acc * 10 + DigitValue(digits[0]))
  }

  lemma MulMonotone(x: nat, p: nat)
    requires p >= 1
    ensures x * p >= x
  {}

  lemma {:induction false} ParseDigitsValue(digits: string, acc: uint64)
    ensures ParseDigits(digits, acc).Ok? <==>
      AllDigits(digits) && acc * Pow10(|digits|) + DecimalValue(digits) < U64_LIMIT
    ensures ParseDigits(digits, acc).Ok? ==>
      ParseDigits(digits, acc).value == acc * Pow10(|digits|) + DecimalValue(digits)
    ensures ParseDigits(digits, acc) == Err(InvalidDigit) ==> !AllDigits(digits)
  {
    if digits == [] {
    } else if !IsDigit(digits[0]) {
    } else {
      var n := |digits|;
      var d := DigitValue(digits[0]);
      var rest := digits[1..];
      var p := Pow10(n - 1);
      assert Pow10(n) == 10 * p;
      assert AllDigits(digits) <==> AllDigits(rest) by {
        if AllDigits(rest) {
          forall i | 0 <= i < n ensures IsDigit(digits[i]) {
            if i > 0 { assert digits[i] == rest[i - 1]; }
          }
        }
      }
      assert (AllDigits(digits) ==> DecimalValue(digits) == d * p + DecimalValue(rest));
      assert acc * (10 * p) + d * p == (acc * 10 + d) * p;
      if acc * 10 + d >= U64_LIMIT {
        if AllDigits(digits) {
          MulMonotone(acc * 10 + d, p);
        }
      } else {
        ParseDigitsValue(rest, acc * 10 + d);
      }
    }
  }

  /** `u64::from_str`. */
  function ParseU64(s: string): (r: Result<uint64, IntErrorKind>)
    ensures r.Ok? <==> IsU64Literal(s)
    ensures r.Ok? ==> r.value == DecimalValue(StripPlus(s))
    ensures r == Err(Empty) <==> StripPlus(s) == []
    ensures r == Err(InvalidDigit) ==> !AllDigits(StripPlus(s))
    ensures |StripPlus(s)| > 0 && AllDigits(StripPlus(s)) && !IsU64Literal(s) ==> r == Err(Overflow)
  {
    if s == [] then Err(Empty)
    else
      var digits := if s[0] == '+' then s[1..] else s;
      if digits == [] then Err(Empty)
      else
        ParseDigitsValue(digits, 0);
        assert digits == StripPlus(s);
        var parsed := ParseDigits(digits, 0);
        assert parsed.Err? ==> parsed.error.Overflow? || parsed.error.InvalidDigit? || parsed.error.Empty?;
        parsed
  }
}
