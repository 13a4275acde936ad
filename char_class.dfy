/** Character classes used by the scanner: the macros of src/lexer.h, which
    work through unsigned wrap-around, and the <ctype.h> predicates of the
    "C" locale that src/lexer.c and src/main.c call.

    A character is handled as the `int` that `current_char` holds: a code
    point, or EOF (-1). */
module CharClass {

  const EOF: int := -1

  /** The values `current_char` can hold: EOF or a code point. */
  type CharCode = c: int | -1 <= c < 0x11_0000

  /** Range of a 32-bit C `int`. */
  predicate IsCInt(c: int) { -0x8000_0000 <= c < 0x8000_0000 }

  /** `(unsigned)(c) - k`, computed modulo 2^32 as C does. */
  function UnsignedMinus(c: int, k: char): (r: int)
    ensures 0 <= r < 0x1_0000_0000
  {
    (c - k as int) % 0x1_0000_0000
  }

  // ---- the macros of src/lexer.h ----

  predicate IsBin(c: int) { c == '0' as int || c == '1' as int }
  predicate IsOct(c: int) { UnsignedMinus(c, '0') <= 7 }
  predicate IsDec(c: int) { UnsignedMinus(c, '0') <= 9 }
  predicate IsUpper(c: int) { UnsignedMinus(c, 'A') < 26 }
  predicate IsLower(c: int) { UnsignedMinus(c, 'a') < 26 }
  predicate IsLabelChar(c: int) { IsLower(c) || IsUpper(c) || IsDec(c) || c == '_' as int }

  // ---- <ctype.h> in the "C" locale ----

  predicate InRange(c: int, lo: char, hi: char) { lo as int <= c <= hi as int }

  predicate IsXDigit(c: int) { InRange(c, '0', '9') || InRange(c, 'a', 'f') || InRange(c, 'A', 'F') }
  predicate IsAlpha(c: int) { InRange(c, 'a', 'z') || InRange(c, 'A', 'Z') }
  predicate IsAlnum(c: int) { IsAlpha(c) || InRange(c, '0', '9') }
  predicate IsSpace(c: int) { c == ' ' as int || InRange(c, '\t', '\r') }

  /** Value of a hexadecimal digit, computed as both lexer functions do:
      lower case minus 87, upper case minus 55, otherwise minus '0'. */
  function DigitValue(c: int): (v: nat)
    requires IsCInt(c) && IsXDigit(c)
    ensures v < 16
  {
    if IsLower(c) then c - 87 else if IsUpper(c) then c - 55 else c - '0' as int
  }

  // ---- what the wrap-around comparisons mean ----

  lemma OctIsDigitRange(c: int)
    requires IsCInt(c)
    ensures IsOct(c) <==> InRange(c, '0', '7')
  {
  }

  lemma DecIsDigitRange(c: int)
    requires IsCInt(c)
    ensures IsDec(c) <==> InRange(c, '0', '9')
  {
  }

  lemma UpperLowerAreAsciiLetters(c: int)
    requires IsCInt(c)
    ensures IsUpper(c) <==> InRange(c, 'A', 'Z')
    ensures IsLower(c) <==> InRange(c, 'a', 'z')
  {
  }

  /** ISLABELCHAR is exactly "letter, digit or underscore", which is also
      the test `isalnum(c) || c == '_'` that the too-long check uses. */
  lemma LabelCharIsAlnumOrUnderscore(c: int)
    requires IsCInt(c)
    ensures IsLabelChar(c) <==> IsAlnum(c) || c == '_' as int
    ensures IsLabelChar(c) ==> 0 <= c < 128
  {
    DecIsDigitRange(c);
    UpperLowerAreAsciiLetters(c);
  }

  /** The digit classes nest: binary within octal within decimal within hex. */
  lemma DigitClassesNest(c: int)
    requires IsCInt(c)
    ensures IsBin(c) ==> IsOct(c)
    ensures IsOct(c) ==> IsDec(c)
    ensures IsDec(c) ==> IsXDigit(c) && !IsAlpha(c)
  {
    OctIsDigitRange(c);
    DecIsDigitRange(c);
  }

  /** A hex digit's value does not depend on its case, and decimal digits
      keep their usual value. */
  lemma DigitValueMeaning(c: int)
    requires IsCInt(c) && IsXDigit(c)
    ensures InRange(c, '0', '9') ==> DigitValue(c) == c - '0' as int
    ensures InRange(c, 'a', 'f') ==> DigitValue(c) == c - 'a' as int + 10
    ensures InRange(c, 'A', 'F') ==> DigitValue(c) == c - 'A' as int + 10
    ensures InRange(c, 'a', 'f') ==> DigitValue(c) == DigitValue(c - 32)
  {
    UpperLowerAreAsciiLetters(c);
    UpperLowerAreAsciiLetters(c - 32);
  }
}
