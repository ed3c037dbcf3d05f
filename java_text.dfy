/**
 * The pieces of `java.lang.String` and `java.lang.Integer` that the library
 * uses: `%d` formatting of an `int`, `Integer.valueOf(String)`,
 * `String.isBlank()` and `String.hashCode()`.
 */
module JavaText {
  import opened JavaLang

  predicate IsDigit(c: char) { '0' <= c <= '9' }

  predicate AllDigits(s: string) { forall i :: 0 <= i < |s| ==> IsDigit(s[i]) }

  function DigitChar(d: nat): (c: char)
    requires d < 10
    ensures IsDigit(c)
  {
    ['0', '1', '2', '3', '4', '5', '6', '7', '8', '9'][d]
  }

  function DigitValue(c: char): (d: nat)
    requires IsDigit(c)
    ensures d < 10
  {
    (c as int - '0' as int) as nat
  }

  lemma DigitRoundTrip(d: nat)
    requires d < 10
    ensures DigitValue(DigitChar(d)) == d
  {
  }

  /** The decimal value of a string of ASCII digits, read left to right. */
  function DigitsValue(s: string): nat
    requires AllDigits(s)
  {
    if |s| == 0 then 0 else DigitsValue(s[..|s| - 1]) * 10 + DigitValue(s[|s| - 1])
  }

  /**
   * The shortest decimal spelling of a natural number, the digits of `%d`: a
   * number below ten is its digit, a larger one the spelling of its tenth
   * followed by its last digit.
   */
  function NatToString(n: nat): (s: string)
    ensures |s| >= 1 && AllDigits(s)
    decreases n, 0
  {
    if n < 10 then [DigitChar(n)] else IntToString(n / 10) + [DigitChar(n % 10)]
  }

  /** `String.format("%d", n)`: a minus sign for negative values, then the digits. */
  function IntToString(n: int): (s: string)
    ensures |s| >= 1
    ensures n >= 0 ==> AllDigits(s)
    decreases if n < 0 then -n else n, 1
  {
    if n < 0 then "-" + NatToString(-n) else NatToString(n)
  }

  lemma {:induction false} NatToStringValue(n: nat)
    ensures DigitsValue(NatToString(n)) == n
  {
    if n >= 10 {
      var s := NatToString(n);
      var p := NatToString(n / 10);
      assert IntToString(n / 10) == p;
      assert s == p + [DigitChar(n % 10)];
      assert s[..|s| - 1] == p;
      NatToStringValue(n / 10);
      DigitRoundTrip(n % 10);
    } else {
      DigitRoundTrip(n);
    }
  }

  lemma IntToStringSign(n: int)
    ensures (IntToString(n)[0] == '-') <==> n < 0
  {
    if n >= 0 {
      assert IsDigit(NatToString(n)[0]);
    }
  }

  /** Different numbers are spelled differently, so generated names never collide. */
  lemma {:induction false} IntToStringInjective(a: int, b: int)
    requires IntToString(a) == IntToString(b)
    ensures a == b
  {
    IntToStringSign(a);
    IntToStringSign(b);
    if a < 0 {
      var na: nat, nb: nat := -a, -b;
      var s := IntToString(a);
      assert s == "-" + NatToString(na);
      assert s[1..] == NatToString(na);
      assert s == "-" + NatToString(nb);
      assert s[1..] == NatToString(nb);
      NatToStringValue(na);
      NatToStringValue(nb);
    } else {
      NatToStringValue(a);
      NatToStringValue(b);
    }
  }

  /**
   * `Integer.valueOf(String)` on a non-null string: an optional sign followed by at
   * least one decimal digit, with a value inside the `int` range; anything else is a
   * NumberFormatException.
   */
  function ParseInt(s: string): (r: Result<int>)
    ensures r.Success? ==> InInt32(r.value)
    ensures r.Failure? ==> r.error == NumberFormat(Some(s))
    ensures r.Success? ==> |s| >= 1
  {
    if |s| == 0 then Failure(NumberFormat(Some(s)))
    else if s[0] == '-' || s[0] == '+' then
      if |s| == 1 || !AllDigits(s[1..]) then Failure(NumberFormat(Some(s)))
      else
        var v: int := if s[0] == '-' then -(DigitsValue(s[1..]) as int) else DigitsValue(s[1..]);
        if InInt32(v) then Success(v) else Failure(NumberFormat(Some(s)))
    else if AllDigits(s) && DigitsValue(s) <= MAX_INT then Success(DigitsValue(s))
    else Failure(NumberFormat(Some(s)))
  }

  /** Parsing undoes `%d` formatting for every `int`. */
  lemma {:induction false} ParseIntOfIntToString(n: int)
    requires InInt32(n)
    ensures ParseInt(IntToString(n)) == Success(n)
  {
    if n < 0 {
      ParseNegative(-n);
      assert IntToString(n) == "-" + NatToString(-n);
    } else {
      ParseNonNegative(n);
    }
  }

  lemma ParseNegative(m: nat)
    requires 0 < m <= MAX_INT + 1
    ensures ParseInt("-" + NatToString(m)) == Success(-(m as int))
  {
    var s := "-" + NatToString(m);
    assert s[1..] == NatToString(m);
    NatToStringValue(m);
  }

  lemma ParseNonNegative(n: nat)
    requires n <= MAX_INT
    ensures ParseInt(NatToString(n)) == Success(n)
  {
    assert IsDigit(NatToString(n)[0]);
    NatToStringValue(n);
  }

  /** `Character.isWhitespace`: the ASCII controls, the separators of Unicode (except the no-break spaces). */
  predicate IsWhitespace(c: char) {
    var n := c as int;
    || n == 0x20 || 0x09 <= n <= 0x0D || 0x1C <= n <= 0x1F
    || n == 0x1680 || 0x2000 <= n <= 0x2006 || 0x2008 <= n <= 0x200A
    || n == 0x2028 || n == 0x2029 || n == 0x205F || n == 0x3000
  }

  /** `String.isBlank()`: empty, or whitespace only. */
  predicate IsBlank(s: string) { forall i :: 0 <= i < |s| ==> IsWhitespace(s[i]) }

  /**
   * The UTF-16 code units a Java string holds for a character: the character
   * itself within the Basic Multilingual Plane, a high and a low surrogate
   * above it.
   */
  function CodeUnits(c: char): (u: seq<int>)
    ensures |u| == if c as int < 0x10000 then 1 else 2
    ensures |u| == 1 ==> u[0] == c as int
    ensures |u| == 2 ==> 0xD800 <= u[0] < 0xDC00 <= u[1] < 0xE000
  {
    var n := c as int;
    if n < 0x10000 then [n]
    else [0xD800 + (n - 0x10000) / 0x400, 0xDC00 + (n - 0x10000) % 0x400]
  }

  /** A surrogate pair decodes back to the character it encodes. */
  lemma CodeUnitsDecode(c: char)
    requires c as int >= 0x10000
    ensures 0x10000 + (CodeUnits(c)[0] - 0xD800) * 0x400 + (CodeUnits(c)[1] - 0xDC00) == c as int
  {
  }

  /** The UTF-16 code units of a string, character by character. */
  function Utf16(s: string): (u: seq<int>)
    ensures |u| >= |s|
  {
    if |s| == 0 then [] else Utf16(s[..|s| - 1]) + CodeUnits(s[|s| - 1])
  }

  /** h = 31 * h + u over code units, in `int` arithmetic. */
  function UnitsHashCode(u: seq<int>): (h: int)
    ensures InInt32(h)
  {
    if |u| == 0 then 0 else Int32(31 * UnitsHashCode(u[..|u| - 1]) + u[|u| - 1])
  }

  /** `String.hashCode()`: the hash of the string's UTF-16 code units. */
  function StringHashCode(s: string): (h: int)
    ensures InInt32(h)
  {
    UnitsHashCode(Utf16(s))
  }

  /** Within the Basic Multilingual Plane a string hashes its characters one by one. */
  lemma {:induction false} StringHashCodeBmp(s: string)
    requires forall i :: 0 <= i < |s| ==> s[i] as int < 0x10000
    ensures Utf16(s) == seq(|s|, i requires 0 <= i < |s| => s[i] as int)
  {
    if |s| > 0 {
      StringHashCodeBmp(s[..|s| - 1]);
    }
  }

  /** A character outside the Basic Multilingual Plane hashes as its two surrogates: U+1F600 gives 31 * 0xD83D + 0xDE00. */
  lemma StringHashCodeSurrogates()
    ensures StringHashCode("\U{1F600}") == 31 * 0xD83D + 0xDE00
  {
    assert Utf16("\U{1F600}") == [0xD83D, 0xDE00];
    assert [0xD83D, 0xDE00][..1] == [0xD83D];
    assert [0xD83D][..0] == [];
    assert UnitsHashCode([0xD83D]) == 0xD83D;
  }

  /** A name made of a prefix and the next value of an `AtomicInteger(1)` counter, `"%s%d"`. */
  function NumberedName(prefix: string, k: nat): string {
    prefix + IntToString(CounterValue(k))
  }

  lemma {:induction false} CancelPrefix(p: string, a: string, b: string)
    requires p + a == p + b
    ensures a == b
  {
    assert a == (p + a)[|p|..];
    assert b == (p + b)[|p|..];
  }

  /** Names numbered by one counter are distinct within 2^32 calls. */
  lemma {:induction false} NumberedNamesDistinct(prefix: string, j: nat, k: nat)
    requires j < k < j + TWO_32
    ensures NumberedName(prefix, j) != NumberedName(prefix, k)
  {
    CounterValueInjective(j, k);
    if NumberedName(prefix, j) == NumberedName(prefix, k) {
      CancelPrefix(prefix, IntToString(CounterValue(j)), IntToString(CounterValue(k)));
      IntToStringInjective(CounterValue(j), CounterValue(k));
    }
  }
}
