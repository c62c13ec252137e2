/**
 * The pieces of Java's integer and string semantics that the token code relies on:
 * 32- and 64-bit two's-complement wrap-around, `String.valueOf(Long)` and `Long.valueOf(String)`.
 */
module JavaText {
  import opened Wrappers

  const TwoTo32: int := 0x1_0000_0000
  const TwoTo64: int := 0x1_0000_0000_0000_0000

  /** Java `int`. */
  type Int32 = x: int | -0x8000_0000 <= x < 0x8000_0000
  /** Java `long`. */
  type Int64 = x: int | -0x8000_0000_0000_0000 <= x < 0x8000_0000_0000_0000

  /** The `int` that Java arithmetic yields for the mathematical value `x`. */
  function Wrap32(x: int): (r: Int32)
    ensures (x - r) % TwoTo32 == 0
    ensures -0x8000_0000 <= x < 0x8000_0000 ==> r == x
  {
    var m := x % TwoTo32;
    if m < 0x8000_0000 then m else m - TwoTo32
  }

  /** The `long` that Java arithmetic yields for the mathematical value `x`. */
  function Wrap64(x: int): (r: Int64)
    ensures (x - r) % TwoTo64 == 0
    ensures -0x8000_0000_0000_0000 <= x < 0x8000_0000_0000_0000 ==> r == x
  {
    var m := x % TwoTo64;
    if m < 0x8000_0000_0000_0000 then m else m - TwoTo64
  }

  predicate IsDigit(c: char) {
    '0' <= c <= '9'
  }

  predicate AllDigits(s: string) {
    forall i :: 0 <= i < |s| ==> IsDigit(s[i])
  }

  function DigitChar(d: nat): (c: char)
    requires d < 10
    ensures IsDigit(c) && c as int - '0' as int == d
  {
    ('0' as int + d) as char
  }

  /** Decimal digits of `n`, most significant first, without leading zeros. */
  function Digits(n: nat): (s: string)
    decreases n
  {
    if n < 10 then [DigitChar(n)] else Digits(n / 10) + [DigitChar(n % 10)]
  }

  /** `Long.toString(n)`: a minus sign for negative values, then the digits of the magnitude. */
  function LongToString(n: Int64): string {
    if n < 0 then "-" + Digits(-(n as int)) else Digits(n)
  }

  /**
   * `String.valueOf(Object)` applied to a `Long`: the text `"null"` for a null reference.
   * `Long.valueOf` reads the text back as the same `long`, and rejects the text of a null.
   */
  function ValueOf(id: Option<Int64>): (r: string)
    ensures ParseLong(r) == id
    ensures id.None? ==> r == "null"
  {
    match id
    case None =>
      assert !IsDigit("null"[0]);
      "null"
    case Some(n) =>
      ParseLongInverse(n);
      LongToString(n)
  }

  /** The value of a string of decimal digits. */
  function DigitsValue(s: string): nat
    requires AllDigits(s)
  {
    if s == [] then 0 else DigitsValue(s[..|s| - 1]) * 10 + (s[|s| - 1] as int - '0' as int)
  }

  /**
   * `Long.valueOf(s)`: an optional sign followed by at least one digit whose value fits a `long`;
   * anything else is a `NumberFormatException` (None).
   */
  function ParseLong(s: string): (r: Option<Int64>)
    ensures r.Some? ==> |s| > 0 && (s[0] == '-' || s[0] == '+' || IsDigit(s[0])) && AllDigits(s[1..])
    ensures r.Some? && s[0] != '-' ==> r.value >= 0
    ensures r.Some? && s[0] == '-' ==> r.value <= 0
  {
    if |s| == 0 then None
    else
      var body := if s[0] == '-' || s[0] == '+' then s[1..] else s;
      if |body| == 0 || !AllDigits(body) then None
      else
        var magnitude: int := DigitsValue(body);
        var v := if s[0] == '-' then -magnitude else magnitude;
        if -0x8000_0000_0000_0000 <= v < 0x8000_0000_0000_0000 then Some(v) else None
  }

  lemma {:induction false} DigitsRoundTrip(n: nat)
    ensures |Digits(n)| > 0 && AllDigits(Digits(n)) && Digits(n)[0] != '-' && Digits(n)[0] != '+'
    ensures DigitsValue(Digits(n)) == n
    decreases n
  {
    if n >= 10 {
      DigitsRoundTrip(n / 10);
      var s := Digits(n);
      assert s[..|s| - 1] == Digits(n / 10);
    }
  }

  /** Reading back what `Long.toString` wrote gives the same `long`. */
  lemma ParseLongInverse(n: Int64)
    ensures ParseLong(LongToString(n)) == Some(n)
  {
    if n < 0 {
      DigitsRoundTrip(-(n as int));
      assert ("-" + Digits(-(n as int)))[1..] == Digits(-(n as int));
    } else {
      DigitsRoundTrip(n);
    }
  }

  /** The subject of a token minted for a null id cannot be read back as a `long`. */
  lemma NullIsNotALong()
    ensures ParseLong(ValueOf(None)) == None
  {
    assert !IsDigit("null"[0]);
  }
}
