/**
 * java.util.UUID as the override store uses it: a 128-bit identifier, its
 * canonical text (`toString`) and the parse of that text (`fromString`).
 */
module Uuids {
  import opened Wrappers
  import opened JavaLang

  /** One hexadecimal digit. */
  type Nibble = n: int | 0 <= n < 16

  /**
   * The 128 bits of a UUID as 32 hexadecimal digits, most significant first
   * (Java keeps the same bits as two 64-bit halves).
   */
  type Uuid = s: seq<Nibble> | |s| == 32 witness seq(32, _ => 0)

  /** Length of the canonical text "xxxxxxxx-xxxx-xxxx-xxxx-xxxxxxxxxxxx". */
  const TextLength := 36

  /** The positions of '-' in the canonical text: digit groups of 8, 4, 4, 4 and 12. */
  predicate IsDashPosition(i: int) {
    i == 8 || i == 13 || i == 18 || i == 23
  }

  /** The digit shown at text position `i`: `i` less the dashes before it. */
  function DigitIndex(i: int): int {
    i - (if i > 8 then 1 else 0) - (if i > 13 then 1 else 0)
      - (if i > 18 then 1 else 0) - (if i > 23 then 1 else 0)
  }

  /** The text position of digit `j`: `j` plus the dashes before it. */
  function TextPosition(j: int): int {
    j + (if j >= 8 then 1 else 0) + (if j >= 12 then 1 else 0)
      + (if j >= 16 then 1 else 0) + (if j >= 20 then 1 else 0)
  }

  /** The lower-case hexadecimal character of a digit, as `toString` prints it. */
  function HexChar(n: Nibble): char {
    if n < 10 then ('0' as int + n) as char else ('a' as int + n - 10) as char
  }

  /** The value of a hexadecimal character of either case. */
  function DigitValue(c: char): Option<Nibble> {
    if '0' <= c <= '9' then Some(c as int - '0' as int)
    else if 'a' <= c <= 'f' then Some(c as int - 'a' as int + 10)
    else if 'A' <= c <= 'F' then Some(c as int - 'A' as int + 10)
    else None
  }

  /** `UUID.toString`: the 32 digits in lower case, grouped 8-4-4-4-12 and joined by '-'. */
  function ToString(u: Uuid): string {
    seq(TextLength, i requires 0 <= i < TextLength =>
      if IsDashPosition(i) then '-' else HexChar(u[DigitIndex(i)]))
  }

  /** A dash at each dash position and a hexadecimal digit everywhere else. */
  predicate IsCanonicalShape(s: string) {
    |s| == TextLength &&
    forall i :: 0 <= i < |s| ==>
      if IsDashPosition(i) then s[i] == '-' else DigitValue(s[i]).Some?
  }

  /** The digit at text position `i` of a string of canonical shape. */
  function DigitAt(s: string, i: nat): Nibble
    requires i < |s|
  {
    match DigitValue(s[i])
    case Some(n) => n
    case None => 0
  }

  /**
   * `UUID.fromString` on the canonical shape (hexadecimal digits of either
   * case); every other string is refused, as Java's `IllegalArgumentException`.
   */
  function FromString(s: string): Option<Uuid> {
    if IsCanonicalShape(s) then
      Some(seq(32, j requires 0 <= j < 32 => DigitAt(s, TextPosition(j))))
    else
      None
  }

  lemma HexCharValue(n: Nibble)
    ensures DigitValue(HexChar(n)) == Some(n)
  {
  }

  /** `fromString` reads back every UUID that `toString` prints. */
  lemma FromStringToString(u: Uuid)
    ensures FromString(ToString(u)) == Some(u)
  {
    var s := ToString(u);
    forall i | 0 <= i < |s|
      ensures if IsDashPosition(i) then s[i] == '-' else DigitValue(s[i]).Some?
    {
      if !IsDashPosition(i) {
        HexCharValue(u[DigitIndex(i)]);
      }
    }
    assert IsCanonicalShape(s);
    var v := FromString(s).value;
    forall j | 0 <= j < 32
      ensures v[j] == u[j]
    {
      assert DigitIndex(TextPosition(j)) == j && !IsDashPosition(TextPosition(j));
      HexCharValue(u[j]);
    }
    assert v == u;
  }

  /** Every UUID reads back from its text, so distinct UUIDs print as distinct strings. */
  lemma ToStringInjective()
    ensures forall u: Uuid :: FromString(ToString(u)) == Some(u)
    ensures forall a: Uuid, b: Uuid :: ToString(a) == ToString(b) ==> a == b
  {
    forall u: Uuid
      ensures FromString(ToString(u)) == Some(u)
    {
      FromStringToString(u);
    }
  }

  /**
   * A string `fromString` accepts is, up to the case of its letters, the
   * canonical text of the UUID it yields.
   */
  lemma ToStringFromString(s: string)
    requires FromString(s).Some?
    ensures ToString(FromString(s).value) == ToLowerAscii(s)
  {
    var u := FromString(s).value;
    var t := ToString(u);
    forall i | 0 <= i < TextLength
      ensures t[i] == AsciiLower(s[i])
    {
      if !IsDashPosition(i) {
        assert TextPosition(DigitIndex(i)) == i;
        assert u[DigitIndex(i)] == DigitAt(s, i);
      }
    }
    assert t == ToLowerAscii(s);
  }

}
