/**
 * The few Kotlin standard-library behaviours the app relies on, written out:
 * 32-bit `Int` range and `Long.toInt()` truncation, `Int` division (which
 * truncates toward zero, unlike Dafny's Euclidean `/`), `Char.isWhitespace`,
 * `CharSequence.isBlank`, `Char.isDigit`, `String.toIntOrNull` and
 * `String.equals(other, ignoreCase = true)`.
 */
module KotlinStd {
  import opened Wrappers

  const IntMin: int := -0x8000_0000
  const IntMax: int := 0x7FFF_FFFF

  predicate InIntRange(x: int) {
    IntMin <= x <= IntMax
  }

  /** `Long.toInt()`: keeps the low 32 bits, read as a two's-complement number. */
  function ToInt(x: int): (r: int)
    ensures InIntRange(r)
    ensures (r - x) % 0x1_0000_0000 == 0
    ensures InIntRange(x) ==> r == x
  {
    (x - IntMin) % 0x1_0000_0000 + IntMin
  }

  /** Two numbers congruent modulo 2^32 truncate to the same `Int`. */
  lemma ToIntOfCongruent(x: int, y: int)
    requires (x - y) % 0x1_0000_0000 == 0
    ensures ToInt(x) == ToInt(y)
  {
    var k := (x - y) / 0x1_0000_0000;
    assert x - IntMin == (y - IntMin) + k * 0x1_0000_0000;
    ModShift(y - IntMin, k);
  }

  /** Shifting by a multiple of 2^32 keeps the remainder. */
  lemma ModShift(a: int, k: int)
    ensures (a + k * 0x1_0000_0000) % 0x1_0000_0000 == a % 0x1_0000_0000
  {
  }

  /** Kotlin `a / b` on `Int` for a positive divisor: the quotient is truncated toward zero. */
  function TruncDiv(a: int, b: int): (q: int)
    requires b > 0
    ensures a >= 0 ==> 0 <= a - q * b < b
    ensures a < 0 ==> -b < a - q * b <= 0
  {
    if a >= 0 then a / b else -((-a) / b)
  }

  /**
   * `Char.isWhitespace()`: Java's `Character.isWhitespace` or `Character.isSpaceChar`,
   * i.e. the ASCII controls TAB..CR and FS..US plus every space, line and paragraph
   * separator of the Unicode tables.
   */
  predicate IsWhitespace(c: char) {
    var n := c as int;
    (9 <= n <= 13) || (28 <= n <= 32) || n == 0xA0 || n == 0x1680
    || (0x2000 <= n <= 0x200A) || n == 0x2028 || n == 0x2029 || n == 0x202F
    || n == 0x205F || n == 0x3000
  }

  /** `CharSequence.isBlank()`: empty or whitespace only. */
  predicate IsBlank(s: string) {
    forall i :: 0 <= i < |s| ==> IsWhitespace(s[i])
  }

  /** `Char.isDigit()`, restricted to the ASCII digits. */
  predicate IsDigit(c: char) {
    '0' <= c <= '9'
  }

  /** `s.all { it.isDigit() }`; true of the empty string. */
  predicate AllDigits(s: string) {
    forall i :: 0 <= i < |s| ==> IsDigit(s[i])
  }

  /** The value of a string of decimal digits, most significant first. */
  function DigitsValue(s: string): nat
    requires AllDigits(s)
  {
    if |s| == 0 then 0
    else 10 * DigitsValue(s[..|s| - 1]) + (s[|s| - 1] as int - '0' as int)
  }

  /**
   * `String.toIntOrNull()`: an optional sign followed by at least one digit,
   * whose value fits in an `Int`; anything else (empty, a lone sign, another
   * character, overflow) gives null.
   */
  function ToIntOrNull(s: string): (r: Option<int>)
    ensures r.Some? ==> InIntRange(r.value)
    ensures s == [] ==> r == None
    ensures s != [] && AllDigits(s) ==> r == (if DigitsValue(s) <= IntMax then Some(DigitsValue(s) as int) else None)
  {
    if |s| == 0 then None
    else
      var negative := s[0] == '-';
      var digits := if s[0] == '-' || s[0] == '+' then s[1..] else s;
      if |digits| == 0 || !AllDigits(digits) then None
      else
        var v: int := if negative then 0 - DigitsValue(digits) as int else DigitsValue(digits);
        if InIntRange(v) then Some(v) else None
  }

  /** ASCII case folding; the platform folds the whole Unicode range. */
  function LowerAscii(c: char): char {
    if 'A' <= c <= 'Z' then (c as int + 32) as char else c
  }

  /** `a.equals(b, ignoreCase = true)`, with ASCII case folding. */
  predicate EqualsIgnoreCase(a: string, b: string) {
    |a| == |b| && forall i :: 0 <= i < |a| ==> LowerAscii(a[i]) == LowerAscii(b[i])
  }

  /** Case-insensitive equality is an equivalence relation that contains plain equality. */
  lemma EqualsIgnoreCaseIsEquivalence(a: string, b: string, c: string)
    ensures a == b ==> EqualsIgnoreCase(a, b)
    ensures EqualsIgnoreCase(a, b) ==> EqualsIgnoreCase(b, a)
    ensures EqualsIgnoreCase(a, b) && EqualsIgnoreCase(b, c) ==> EqualsIgnoreCase(a, c)
  {
  }
}
