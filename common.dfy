/** Small failure-carrying datatypes and the decimal rendering shared by every module of the model. */
module Common {

  datatype Option<+T> = None | Some(value: T)

  /** The outcome of an operation that either completes or throws. */
  datatype Outcome<+E> = Pass | Fail(error: E)

  /** The outcome of an operation that returns a value or throws. */
  datatype Result<+T, +E> = Ok(value: T) | Err(error: E)

  /** `Number.MAX_SAFE_INTEGER`, 2^53 - 1. */
  const MAX_SAFE_INTEGER: int := 0x1F_FFFF_FFFF_FFFF

  /** The integers a JavaScript number holds exactly, one by one. */
  type SafeInteger = n: int | -MAX_SAFE_INTEGER <= n <= MAX_SAFE_INTEGER

  predicate IsDigit(c: char)
  {
    '0' <= c <= '9'
  }

  /** A non-empty run of decimal digits without a leading zero (except "0" itself). */
  predicate IsDecimal(s: string)
  {
    && |s| > 0
    && (forall i :: 0 <= i < |s| ==> IsDigit(s[i]))
    && (s[0] == '0' ==> |s| == 1)
  }

  /** The value of a string of decimal digits, most significant digit first. */
  function DecimalValue(s: string): nat
    requires forall i :: 0 <= i < |s| ==> IsDigit(s[i])
  {
    if s == [] then 0
    else
      assert IsDigit(s[|s| - 1]);
      10 * DecimalValue(s[..|s| - 1]) + (s[|s| - 1] as int - '0' as int)
  }

  /** Reads an optionally negative canonical decimal numeral; anything else is None. */
  function ParseInteger(s: string): Option<int>
  {
    if |s| > 1 && s[0] == '-' && IsDecimal(s[1..]) && s[1..] != "0" then Some(0 - DecimalValue(s[1..]) as int)
    else if IsDecimal(s) then Some(DecimalValue(s))
    else None
  }

  /**
   * Decimal rendering of an integer: the canonical numeral that reads back as `n`.
   * For a safe integer this is JavaScript's `String(n)`.
   */
  function IntToString(n: int): (s: string)
    ensures ParseInteger(s) == Some(n)
  {
    if n < 0 then
      var digits := NatToString(-n);
      assert ("-" + digits)[1..] == digits;
      "-" + digits
    else NatToString(n)
  }

  function NatToString(n: nat): (s: string)
    ensures IsDecimal(s) && DecimalValue(s) == n
    decreases n
  {
    var digit := [('0' as int + n % 10) as char];
    if n < 10 then digit
    else
      var prefix := NatToString(n / 10);
      assert (prefix + digit)[..|prefix|] == prefix;
      prefix + digit
  }
}
