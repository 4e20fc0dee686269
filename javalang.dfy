/**
 * The parts of java.lang the plugin leans on: comparisons of `double`
 * values (which NaN never satisfies) and `String.equalsIgnoreCase`.
 */
module JavaLang {

  /**
   * A Java `double` as comparisons see it. Finite values are kept exactly;
   * the rounding of a decimal text to the nearest double is not modelled.
   */
  datatype Double = Finite(value: real) | NaN | PositiveInfinity | NegativeInfinity

  /** Java's `a < b`: false whenever either side is NaN. */
  predicate Less(a: Double, b: Double) {
    match (a, b)
    case (Finite(x), Finite(y)) => x < y
    case (NegativeInfinity, Finite(_)) => true
    case (NegativeInfinity, PositiveInfinity) => true
    case (Finite(_), PositiveInfinity) => true
    case _ => false
  }

  /** Java's `a > b`. */
  predicate Greater(a: Double, b: Double) {
    Less(b, a)
  }

  /** Java's `a <= b`: false whenever either side is NaN. */
  predicate AtMost(a: Double, b: Double) {
    Less(a, b) || (a == b && !a.NaN?)
  }

  /** Lower-case of an ASCII letter; every other character is left alone. */
  function AsciiLower(c: char): char {
    if 'A' <= c <= 'Z' then (c as int - 'A' as int + 'a' as int) as char else c
  }

  /** The string with its ASCII letters lowered. */
  function ToLowerAscii(s: string): string {
    seq(|s|, i requires 0 <= i < |s| => AsciiLower(s[i]))
  }

  /** `a.equalsIgnoreCase(b)`, with case folding restricted to ASCII letters. */
  predicate EqualsIgnoreCase(a: string, b: string) {
    ToLowerAscii(a) == ToLowerAscii(b)
  }

  /**
   * equalsIgnoreCase compares character by character: equal lengths, and at
   * every position the same character or the same letter in another case.
   */
  lemma EqualsIgnoreCaseCharwise(a: string, b: string)
    ensures EqualsIgnoreCase(a, b) <==>
      |a| == |b| && forall i :: 0 <= i < |a| ==> a[i] == b[i] || AsciiLower(a[i]) == AsciiLower(b[i])
  {
    if EqualsIgnoreCase(a, b) {
      assert |ToLowerAscii(a)| == |a| && |ToLowerAscii(b)| == |b|;
      forall i | 0 <= i < |a| ensures AsciiLower(a[i]) == AsciiLower(b[i]) {
        assert ToLowerAscii(a)[i] == ToLowerAscii(b)[i];
      }
    }
    if |a| == |b| && forall i :: 0 <= i < |a| ==> a[i] == b[i] || AsciiLower(a[i]) == AsciiLower(b[i]) {
      assert ToLowerAscii(a) == ToLowerAscii(b);
    }
  }

}
