/**
 * The numeric helpers the preferences store relies on: the clamp, the
 * conversion of an integer to its decimal string (`String(n)`), and the
 * conversion back (`Number(raw)`), modelled as a partial integer parser.
 */
module Numbers {
  import opened Storage

  /** `Math.min(max, Math.max(min, value))`. */
  function Clamp(value: int, min: int, max: int): (r: int)
    ensures min <= max ==> min <= r <= max
    ensures min <= value <= max ==> r == value
    ensures min <= max && value < min ==> r == min
    ensures min <= max && max < value ==> r == max
  {
    var atLeastMin := if min < value then value else min;
    if max < atLeastMin then max else atLeastMin
  }

  /** Clamping a clamped value again changes nothing. */
  lemma ClampIdempotent(value: int, min: int, max: int)
    requires min <= max
    ensures Clamp(Clamp(value, min, max), min, max) == Clamp(value, min, max)
  {
  }

  predicate IsDigit(c: char) {
    '0' <= c <= '9'
  }

  predicate AllDigits(s: string) {
    forall i :: 0 <= i < |s| ==> IsDigit(s[i])
  }

  function DigitValue(c: char): (d: nat)
    requires IsDigit(c)
    ensures d < 10
  {
    (c as int) - ('0' as int)
  }

  function DigitChar(d: nat): (c: char)
    requires d < 10
    ensures IsDigit(c) && DigitValue(c) == d
  {
    (('0' as int) + d) as char
  }

  /** The decimal numeral of a natural number, most significant digit first, without leading zeros. */
  function NatToString(n: nat): (s: string)
    ensures |s| > 0 && AllDigits(s)
    ensures |s| > 1 ==> s[0] != '0'
    decreases n
  {
    if n < 10 then [DigitChar(n)] else NatToString(n / 10) + [DigitChar(n % 10)]
  }

  /** The value of a string of decimal digits (the empty string has value 0). */
  function DigitsValue(s: string): (n: nat)
    requires AllDigits(s)
    decreases |s|
  {
    if s == [] then 0 else 10 * DigitsValue(s[..|s| - 1]) + DigitValue(s[|s| - 1])
  }

  /** Reading back the numeral of `n` gives `n`. */
  lemma {:induction false} DigitsValueOfNatToString(n: nat)
    ensures DigitsValue(NatToString(n)) == n
  {
    var s := NatToString(n);
    if n < 10 {
      assert s[..|s| - 1] == [];
    } else {
      assert s[..|s| - 1] == NatToString(n / 10);
      DigitsValueOfNatToString(n / 10);
    }
  }

  /**
   * `String(n)` for the font steps in [-1, 2] (and, in JavaScript, for every
   * integer below 2^53 in magnitude): a minus sign for negatives, then the
   * numeral of `|n|`.
   */
  function IntToString(n: int): (s: string)
    ensures |s| > 0
    ensures s[0] == '-' <==> n < 0
    ensures n >= 0 ==> AllDigits(s)
    ensures n < 0 ==> AllDigits(s[1..]) && |s| > 1
  {
    if n < 0 then "-" + NatToString(-n) else NatToString(n)
  }

  /**
   * 2^1024 - 2^970: the smallest magnitude that a double-precision `Number`
   * rounds to Infinity. A numeral at least this large is not finite.
   */
  const FLOAT_OVERFLOW: int := 0xfffffffffffffc00000000000000000000000000000000000000000000000000000000000000000000000000000000000000000000000000000000000000000000000000000000000000000000000000000000000000000000000000000000000000000000000000000000000000000000000000000000000000000000000000

  /**
   * `Number(raw)` restricted to the integers, with `None` standing for the
   * non-finite results (NaN and the infinities): the empty string is 0, an
   * optional sign followed by at least one decimal digit is that integer
   * unless its magnitude overflows a double, anything else is not a number.
   */
  function ParseNumber(raw: string): (r: Option<int>)
    ensures raw == "" ==> r == Some(0)
    ensures AllDigits(raw) && DigitsValue(raw) < FLOAT_OVERFLOW ==> r == Some(DigitsValue(raw))
    ensures AllDigits(raw) && DigitsValue(raw) >= FLOAT_OVERFLOW ==> r.None?
    ensures |raw| > 1 && (raw[0] == '-' || raw[0] == '+') && AllDigits(raw[1..]) ==>
              r == (if DigitsValue(raw[1..]) < FLOAT_OVERFLOW
                    then Some(if raw[0] == '-' then -(DigitsValue(raw[1..]) as int) else DigitsValue(raw[1..]))
                    else None)
    ensures raw == "-" || raw == "+" ==> r.None?
    ensures (exists i :: 1 <= i < |raw| && !IsDigit(raw[i])) ==> r.None?
    ensures |raw| > 0 && !IsDigit(raw[0]) && raw[0] != '-' && raw[0] != '+' ==> r.None?
    ensures r.Some? ==> -FLOAT_OVERFLOW < r.value < FLOAT_OVERFLOW
  {
    if raw == "" then Some(0)
    else if (raw[0] == '-' || raw[0] == '+') && |raw| > 1 && AllDigits(raw[1..]) then
      var magnitude: int := DigitsValue(raw[1..]);
      if magnitude < FLOAT_OVERFLOW then Some(if raw[0] == '-' then -magnitude else magnitude) else None
    else if AllDigits(raw) then
      if DigitsValue(raw) < FLOAT_OVERFLOW then Some(DigitsValue(raw)) else None
    else None
  }

  /** `Number(String(n)) == n`: an integer of finite magnitude written to storage reads back as itself. */
  lemma ParseNumberOfIntToString(n: int)
    requires -FLOAT_OVERFLOW < n < FLOAT_OVERFLOW
    ensures ParseNumber(IntToString(n)) == Some(n)
  {
    var s := IntToString(n);
    if n < 0 {
      assert s[1..] == NatToString(-n);
      DigitsValueOfNatToString(-n);
    } else {
      DigitsValueOfNatToString(n);
    }
  }

  /** Two integers with the same string are equal. */
  lemma IntToStringInjective(m: int, n: int)
    requires IntToString(m) == IntToString(n)
    ensures m == n
  {
    var s := IntToString(m);
    if m < 0 {
      assert s[1..] == NatToString(-m) == NatToString(-n);
      DigitsValueOfNatToString(-m);
      DigitsValueOfNatToString(-n);
    } else {
      DigitsValueOfNatToString(m);
      DigitsValueOfNatToString(n);
    }
  }
}
