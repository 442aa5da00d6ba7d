/**
 * The pieces of the Java platform the Android code relies on: the exceptions it can
 * raise, Integer.parseInt, Long.toString and String.compareTo, written out so that
 * their edge cases (signs, the 32-bit range, length differences) are explicit.
 *
 * Strings are sequences of Dafny characters; Java's UTF-16 code units are not
 * distinguished from them.
 */
module Java {
  import opened Wrappers

  /** The exceptions that the modelled Java code can raise. */
  datatype Exception =
    | NullPointer              // a method called on null
    | CursorIndexOutOfBounds   // a cursor read while positioned before the first or after the last row
    | IllegalState             // a cursor read from a column index the cursor does not have
    | ArrayIndexOutOfBounds    // System.arraycopy past the end of an array
    | AssertionFailed          // junit's Assert.fail
    | IllegalArgument          // a playlist position out of range

  /** The outcome of a Java call: a returned value or a thrown exception. */
  datatype Result<+T> = Return(value: T) | Throw(error: Exception)

  const INT_MIN: int := -0x8000_0000
  const INT_MAX: int := 0x7fff_ffff

  predicate IsDigit(c: char) {
    '0' <= c <= '9'
  }

  predicate AllDigits(s: string) {
    forall i :: 0 <= i < |s| ==> IsDigit(s[i])
  }

  function DigitChar(d: nat): (c: char)
    requires d < 10
    ensures IsDigit(c)
  {
    ('0' as int + d) as char
  }

  /** The value of a string of decimal digits, read most significant digit first. */
  function DigitsValue(s: string): nat
    requires AllDigits(s)
  {
    if s == [] then 0 else DigitsValue(s[..|s| - 1]) * 10 + ((s[|s| - 1] as int) - ('0' as int))
  }

  /**
   * Integer.parseInt(s) in radix 10: an optional '+' or '-', then at least one digit,
   * and a value that fits in 32 bits. None stands for NumberFormatException.
   * A null argument is not a string here; callers handle it.
   */
  function ParseInt(s: string): (r: Option<int>)
    ensures r.Some? ==> INT_MIN <= r.value <= INT_MAX
    ensures r.Some? ==> |s| > 0 && (IsDigit(s[0]) || s[0] == '-' || s[0] == '+')
  {
    if |s| == 0 then None
    else
      var digits := if s[0] == '-' || s[0] == '+' then s[1..] else s;
      if |digits| == 0 || !AllDigits(digits) then None
      else
        var v: int := if s[0] == '-' then 0 - (DigitsValue(digits) as int) else DigitsValue(digits);
        if INT_MIN <= v <= INT_MAX then Some(v) else None
  }

  /** The decimal digits of n, without leading zeros. */
  function NatToDecimal(n: nat): (s: string)
    ensures |s| > 0 && AllDigits(s)
  {
    if n < 10 then [DigitChar(n)] else NatToDecimal(n / 10) + [DigitChar(n % 10)]
  }

  /** Long.toString(n) (and Integer.toString): a '-' for negative values, then the digits. */
  function LongToString(n: int): (s: string)
    ensures |s| > 0
    ensures n >= 0 ==> AllDigits(s)
    ensures n < 0 ==> s[0] == '-' && AllDigits(s[1..])
  {
    if n < 0 then "-" + NatToDecimal(-n) else NatToDecimal(n)
  }

  lemma {:induction false} NatToDecimalValue(n: nat)
    ensures DigitsValue(NatToDecimal(n)) == n
  {
    if n >= 10 {
      NatToDecimalValue(n / 10);
      var s := NatToDecimal(n);
      assert s[..|s| - 1] == NatToDecimal(n / 10);
    }
  }

  /** Integer.parseInt reads back what Long.toString writes, for every 32-bit value. */
  lemma ParseIntOfToString(n: int)
    requires INT_MIN <= n <= INT_MAX
    ensures ParseInt(LongToString(n)) == Some(n)
  {
    var s := LongToString(n);
    if n < 0 {
      var d := NatToDecimal(-n);
      NatToDecimalValue(-n);
      assert s == "-" + d && s[0] == '-' && s[1..] == d;
    } else {
      var d := NatToDecimal(n);
      NatToDecimalValue(n);
      assert s == d && IsDigit(s[0]) && s[0] != '-' && s[0] != '+';
    }
  }

  /**
   * String.compareTo: the difference of the first differing characters, or else the
   * difference of the lengths.
   */
  function CompareTo(s: string, t: string): int
  {
    if |s| == 0 || |t| == 0 then |s| - |t|
    else if s[0] != t[0] then (s[0] as int) - (t[0] as int)
    else CompareTo(s[1..], t[1..])
  }

  lemma {:induction false} CompareToAntisymmetric(s: string, t: string)
    ensures CompareTo(s, t) == -CompareTo(t, s)
  {
    if |s| > 0 && |t| > 0 && s[0] == t[0] {
      CompareToAntisymmetric(s[1..], t[1..]);
    }
  }

  /** compareTo is zero exactly for equal strings. */
  lemma {:induction false} CompareToZero(s: string, t: string)
    ensures CompareTo(s, t) == 0 <==> s == t
  {
    if |s| > 0 && |t| > 0 && s[0] == t[0] {
      CompareToZero(s[1..], t[1..]);
      assert s == [s[0]] + s[1..] && t == [t[0]] + t[1..];
    }
  }

  /** Object.toString() of the two kinds of values the Android code passes as keys. */
  datatype Value = Str(s: string) | Long(n: int)

  function ToString(v: Value): string
  {
    match v
    case Str(s) => s
    case Long(n) => LongToString(n)
  }
}
