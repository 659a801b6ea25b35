/** Shared vocabulary of the compiler model: failure values standing for the
    Java exceptions, Java's 32-bit `int`, and decimal conversion as done by
    `String.valueOf(int)` and `Integer.valueOf(String)`. */
module Base {

  /** Which exception the Java code throws. The first five are the helpers of
      `Utils` (notYetImpl, unexpected, unsupported, invalidType, invalidKind). */
  datatype Error =
    | NotYetImpl
    | Unexpected
    | Unsupported
    | InvalidType
    | InvalidKind
    | AssertionFailed   // Parser.assertValue: right kind, wrong text
    | IndexOutOfBounds  // List.get past the end
    | IllegalArgument   // Kind.of on an unknown name; subList(1, 0) on an empty list
    | NumberFormat      // Integer.valueOf on a non-number or a value outside int

  /** A computation that either yields a value or aborts with an exception. */
  datatype Result<+T> = Ok(value: T) | Err(error: Error) {
    predicate IsFailure() { Err? }
    function PropagateFailure<U>(): Result<U> requires Err? { Err(error) }
    function Extract(): T requires Ok? { value }
  }

  /** A `void` Java method: it returns, or aborts with an exception. */
  datatype Outcome = Pass | Fail(error: Error) {
    predicate IsFailure() { Fail? }
    function PropagateFailure<U>(): Result<U> requires Fail? { Err(error) }
  }

  /** A Java reference that may be null. */
  datatype Option<+T> = None | Some(value: T)

  /** Java `int`. */
  type Int32 = x: int | -0x8000_0000 <= x < 0x8000_0000

  predicate IsDigit(c: char) { '0' <= c <= '9' }

  predicate AllDigits(s: string) { forall i :: 0 <= i < |s| ==> IsDigit(s[i]) }

  function DigitChar(d: nat): (c: char)
    requires d < 10
    ensures IsDigit(c)
  {
    ('0' as int + d) as char
  }

  function DigitValue(c: char): (d: nat)
    requires IsDigit(c)
    ensures d < 10 && DigitChar(d) == c
  {
    (c as int - '0' as int) as nat
  }

  /** The decimal digits of `n`, most significant first, without leading zeros. */
  function Digits(n: nat): (s: string)
    ensures |s| > 0 && AllDigits(s)
  {
    if n < 10 then [DigitChar(n)] else Digits(n / 10) + [DigitChar(n % 10)]
  }

  /** The value of a run of decimal digits. */
  function DigitsValue(s: string): nat
    requires AllDigits(s)
  {
    if s == [] then 0 else 10 * DigitsValue(s[..|s| - 1]) + DigitValue(s[|s| - 1])
  }

  /** `String.valueOf(int)` (and `%d`): a minus sign for negative values, then the digits. */
  function Dec(n: int): (s: string)
    ensures |s| > 0
    ensures forall i :: 0 <= i < |s| ==> IsDigit(s[i]) || (i == 0 && s[i] == '-')
  {
    if n < 0 then "-" + Digits(-n) else Digits(n)
  }

  /** The value of the characters `s[lo..hi]` read as decimal digits, or
      `None` when one of them is not a digit. */
  function ReadDigits(s: string, lo: nat, hi: nat): Option<nat>
    requires lo <= hi <= |s|
    decreases hi
  {
    if hi == lo then Some(0)
    else if !IsDigit(s[hi - 1]) then None
    else
      match ReadDigits(s, lo, hi - 1)
      case None => None
      case Some(v) => Some(10 * v + DigitValue(s[hi - 1]))
  }

  /** `Integer.valueOf(String)`: an optional sign, then one or more ASCII digits,
      in range. */
  function ParseInt(s: string): (r: Result<Int32>)
    ensures r.Err? ==> r.error == NumberFormat
  {
    var lo := if |s| > 0 && (s[0] == '-' || s[0] == '+') then 1 else 0;
    if lo == |s| then Err(NumberFormat)
    else
      match ReadDigits(s, lo, |s|)
      case None => Err(NumberFormat)
      case Some(m) =>
        var v: int := if s[0] == '-' then -(m as int) else m;
        if -0x8000_0000 <= v < 0x8000_0000 then Ok(v) else Err(NumberFormat)
  }

  /** Reading digits gives their value exactly when every character is a digit. */
  lemma {:induction false} ReadDigitsValue(s: string, lo: nat, hi: nat)
    requires lo <= hi <= |s|
    ensures AllDigits(s[lo..hi]) ==> ReadDigits(s, lo, hi) == Some(DigitsValue(s[lo..hi]))
    ensures !AllDigits(s[lo..hi]) ==> ReadDigits(s, lo, hi) == None
    decreases hi
  {
    if hi > lo {
      var t := s[lo..hi];
      var init := s[lo..hi - 1];
      assert init == t[..|t| - 1];
      ReadDigitsValue(s, lo, hi - 1);
      if AllDigits(t) {
        assert AllDigits(init) by {
          forall i | 0 <= i < |init| ensures IsDigit(init[i]) {
            assert init[i] == t[i];
          }
        }
      } else if IsDigit(s[hi - 1]) {
        assert !AllDigits(init) by {
          var i :| 0 <= i < |t| && !IsDigit(t[i]);
          assert i < |init| && init[i] == t[i];
        }
      }
    }
  }

  lemma {:induction false} DigitsRoundTrip(n: nat)
    ensures DigitsValue(Digits(n)) == n
  {
    if n >= 10 {
      var s := Digits(n);
      var h := Digits(n / 10);
      assert s[..|s| - 1] == h && s[|s| - 1] == DigitChar(n % 10);
      DigitsRoundTrip(n / 10);
    }
  }

  /** Reading back the decimal form of an `int` gives the `int`. */
  lemma DecRoundTrip(n: Int32)
    ensures ParseInt(Dec(n)) == Ok(n)
  {
    var s := Dec(n);
    if n < 0 {
      var m: nat := -(n as int);
      var d := Digits(m);
      assert s == "-" + d && s[1..|s|] == d;
      DigitsRoundTrip(m);
      ReadDigitsValue(s, 1, |s|);
      assert ParseInt(s) == Ok(-(DigitsValue(d) as int));
    } else {
      var d := Digits(n);
      assert s == d && IsDigit(s[0]) && s[0..|s|] == d;
      DigitsRoundTrip(n);
      ReadDigitsValue(s, 0, |s|);
      assert ParseInt(s) == Ok(DigitsValue(d));
    }
  }

  /** Distinct numbers have distinct decimal forms. */
  lemma DecInjective(a: Int32, b: Int32)
    requires Dec(a) == Dec(b)
    ensures a == b
  {
    DecRoundTrip(a);
    DecRoundTrip(b);
  }
}
