/** What `int(...)` makes of a run of ASCII decimal digits. */
module Decimal {
  import opened Optional
  import opened Ascii

  predicate IsDigitString(ds: string) {
    forall i :: 0 <= i < |ds| ==> IsDigit(ds[i])
  }

  function DigitValue(c: char): nat
    requires IsDigit(c)
  {
    c as int - '0' as int
  }

  function Pow10(k: nat): (p: nat)
    ensures p >= 1
  {
    if k == 0 then 1 else 10 * Pow10(k - 1)
  }

  /** The value of a digit run read left to right; leading zeros add nothing. */
  function DecimalValue(ds: string): (n: nat)
    requires IsDigitString(ds)
    ensures n < Pow10(|ds|)
  {
    if ds == [] then 0 else DecimalValue(ds[..|ds| - 1]) * 10 + DigitValue(ds[|ds| - 1])
  }

  /** The shortest decimal spelling of n, as `str(n)` writes it. */
  function DecimalString(n: nat): (ds: string)
    ensures IsDigitString(ds) && 1 <= |ds|
    ensures |ds| > 1 ==> ds[0] != '0'
  {
    var d := ['0' + (n % 10) as char];
    if n < 10 then d else DecimalString(n / 10) + d
  }

  /** `int(str(n)) == n`. */
  lemma {:induction false} DecimalRoundTrip(n: nat)
    ensures DecimalValue(DecimalString(n)) == n
  {
    var ds := DecimalString(n);
    if n >= 10 {
      assert ds[..|ds| - 1] == DecimalString(n / 10);
      DecimalRoundTrip(n / 10);
    }
  }

  /** `int` ignores leading zeros: `int("0" + ds) == int(ds)`. */
  lemma {:induction false} LeadingZeroIgnored(ds: string)
    requires IsDigitString(ds)
    ensures IsDigitString("0" + ds) && DecimalValue("0" + ds) == DecimalValue(ds)
  {
    if ds != [] {
      var init := ds[..|ds| - 1];
      assert ("0" + ds)[..|ds|] == "0" + init;
      LeadingZeroIgnored(init);
    }
  }

  /** CPython checks the digit limit only for strings longer than this. */
  const LongMaxStrDigitsThreshold := 640
  /** The default `sys.get_int_max_str_digits()` of interpreters that have the limit. */
  const DefaultMaxStrDigits := 4300

  /**
    `int(ds)` for a digit run, under the interpreter's digit limit
    `maxStrDigits` (0 means unlimited, as in `sys.set_int_max_str_digits(0)`
    and on interpreters without the limit). None stands for the ValueError
    raised for a run that is too long.
   */
  function ParseInt(ds: string, maxStrDigits: nat): (r: Option<nat>)
    requires IsDigitString(ds)
    ensures r.None? <==> maxStrDigits > 0 && |ds| > LongMaxStrDigitsThreshold && |ds| > maxStrDigits
    ensures r.Some? ==> r.value == DecimalValue(ds) && r.value < Pow10(|ds|)
  {
    if maxStrDigits > 0 && |ds| > LongMaxStrDigitsThreshold && |ds| > maxStrDigits then None
    else Some(DecimalValue(ds))
  }
}
