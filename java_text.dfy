/**
  The two pieces of the Java library whose behaviour the command depends on:
  `Integer.parseInt(s)` (radix 10), which decides whether a selector is an index,
  and the `%d` / `%-3d` conversions of `String.format`, which print the indices
  of a listing.
 */
module JavaText {
  import opened Wrappers

  /** The range of Java's 32-bit `int`. */
  const IntMin: int := -0x8000_0000
  const IntMax: int := 0x7fff_ffff

  predicate IsDigit(c: char) {
    '0' <= c <= '9'
  }

  predicate AllDigits(s: string) {
    forall i :: 0 <= i < |s| ==> IsDigit(s[i])
  }

  /** The value of a string of decimal digits, most significant digit first. */
  function DigitsValue(s: string): nat
    requires AllDigits(s)
  {
    if s == [] then 0 else DigitsValue(s[..|s| - 1]) * 10 + (s[|s| - 1] as int - '0' as int)
  }

  /**
    `Integer.parseInt(s)`: an optional `+` or `-`, then at least one decimal digit
    and nothing else, whose value lies in the `int` range. `None` stands for the
    `NumberFormatException` Java throws on every other string.
   */
  function ParseInt(s: string): (r: Option<int>)
    ensures r.Some? ==> IntMin <= r.value <= IntMax
  {
    var signed := |s| > 0 && (s[0] == '-' || s[0] == '+');
    var digits := if signed then s[1..] else s;
    if digits == [] || !AllDigits(digits) then None
    else
      var v: int := if signed && s[0] == '-' then -(DigitsValue(digits) as int) else DigitsValue(digits);
      if IntMin <= v <= IntMax then Some(v) else None
  }

  function DigitChar(d: nat): (c: char)
    requires d < 10
    ensures IsDigit(c) && c as int - '0' as int == d
  {
    ('0' as int + d) as char
  }

  /**
    The decimal form of a non-negative number, as `Integer.toString` and `%d`
    print it: no leading zero except in `0` itself. `DecimalDigitsValue` states
    that the digits spell `n`.
   */
  function DecimalDigits(n: nat): (r: string)
    ensures |r| > 0 && (r[0] == '0' <==> n == 0)
  {
    if n < 10 then [DigitChar(n)] else DecimalDigits(n / 10) + [DigitChar(n % 10)]
  }

  /** The decimal form of any integer, with a leading `-` when it is negative. */
  function IntToString(i: int): string
  {
    if i < 0 then "-" + DecimalDigits(-i) else DecimalDigits(i)
  }

  /** `DecimalDigits` writes a non-empty digit string whose value is the number written. */
  lemma {:induction false} DecimalDigitsValue(n: nat)
    ensures |DecimalDigits(n)| > 0 && AllDigits(DecimalDigits(n))
    ensures DigitsValue(DecimalDigits(n)) == n
  {
    var s := DecimalDigits(n);
    if n >= 10 {
      DecimalDigitsValue(n / 10);
      assert s[..|s| - 1] == DecimalDigits(n / 10);
    }
  }

  /** Every number below 1000 is written with at most three digits, and every larger one with more. */
  lemma DecimalDigitsWidth(n: nat)
    ensures n < 1000 <==> |DecimalDigits(n)| <= 3
  {
    if n >= 10 {
      assert |DecimalDigits(n)| == |DecimalDigits(n / 10)| + 1;
      if n / 10 >= 10 {
        assert |DecimalDigits(n / 10)| == |DecimalDigits(n / 100)| + 1;
        if n / 100 >= 10 {
          assert |DecimalDigits(n / 100)| == |DecimalDigits(n / 1000)| + 1;
          assert |DecimalDigits(n / 1000)| >= 1;
        }
      }
    }
  }

  /** Parsing what `IntToString` prints gives the number back, for every `int`. */
  lemma ParseIntToString(i: int)
    requires IntMin <= i <= IntMax
    ensures ParseInt(IntToString(i)) == Some(i)
  {
    var s := IntToString(i);
    if i < 0 {
      DecimalDigitsValue(-i);
      assert s[1..] == DecimalDigits(-i);
    } else {
      DecimalDigitsValue(i);
    }
  }

  /**
    A digit string whose value does not fit in an `int` is not a number for
    `Integer.parseInt`.
   */
  lemma ParseIntOverflow(n: nat)
    requires n > IntMax
    ensures ParseInt(DecimalDigits(n)) == None
  {
    DecimalDigitsValue(n);
  }

  /**
    `%-Nd` and `%-Ns` justify to the left: the text is kept and spaces are added
    on the right until it is `width` characters long; longer text is kept whole.
   */
  function PadRight(s: string, width: nat): (r: string)
    ensures |r| == if |s| < width then width else |s|
    ensures r[..|s|] == s
    ensures forall k :: |s| <= k < |r| ==> r[k] == ' '
  {
    if |s| >= width then s else s + seq(width - |s|, _ => ' ')
  }
}
