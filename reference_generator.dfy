/**
 * TransactionReferenceGenerator: a reference is the decimal form of a draw
 * from [0, 20000) followed by one upper-case letter drawn from A-Z. The two
 * draws of java.util.Random are parameters here.
 */
module TransactionReferenceGenerator {

  /** The bound passed to Random.nextInt for the numeric part. */
  const IntBound: int := 20000
  /** The bound passed to Random.nextInt for the letter. */
  const LetterCount: int := 26

  predicate IsDigit(c: char) {
    '0' <= c <= '9'
  }

  predicate IsUpperLetter(c: char) {
    'A' <= c <= 'Z'
  }

  function DigitChar(d: int): (c: char)
    requires 0 <= d < 10
    ensures IsDigit(c) && c as int - '0' as int == d
  {
    ('0' as int + d) as char
  }

  function Pow10(k: nat): nat {
    if k == 0 then 1 else 10 * Pow10(k - 1)
  }

  /** Integer.toString for a non-negative int: its decimal digits, without leading zeros. */
  function IntToString(n: nat): (r: string)
    ensures |r| >= 1
    ensures forall i :: 0 <= i < |r| ==> IsDigit(r[i])
    ensures n > 0 ==> r[0] != '0'
  {
    if n < 10 then [DigitChar(n)] else IntToString(n / 10) + [DigitChar(n % 10)]
  }

  /** The value of a string of decimal digits. */
  function ParseDecimal(s: string): nat
    requires forall i :: 0 <= i < |s| ==> IsDigit(s[i])
  {
    if s == [] then 0
    else
      assert IsDigit(s[|s| - 1]);
      10 * ParseDecimal(s[..|s| - 1]) + (s[|s| - 1] as int - '0' as int)
  }

  /** Parsing the decimal form of n gives back n. */
  lemma {:induction false} IntToStringRoundTrip(n: nat)
    ensures ParseDecimal(IntToString(n)) == n
  {
    if n >= 10 {
      var r := IntToString(n);
      assert r[..|r| - 1] == IntToString(n / 10);
      IntToStringRoundTrip(n / 10);
    }
  }

  /** A number below 10^k has at most k digits. */
  lemma {:induction false} IntToStringLength(n: nat, k: nat)
    requires k >= 1 && n < Pow10(k)
    ensures |IntToString(n)| <= k
  {
    if n >= 10 {
      IntToStringLength(n / 10, k - 1);
    }
  }

  /** The default locale of the JVM, as far as String.toUpperCase() is concerned. */
  datatype Locale =
    | Root     // every locale other than the two below
    | Turkic   // tr and az: 'i' upper-cases to LATIN CAPITAL LETTER I WITH DOT ABOVE

  /** String.toUpperCase() on a one-letter lower-case string, in the given default locale. */
  function LocaleUpperCase(c: char, locale: Locale): char
    requires 'a' <= c <= 'z'
  {
    if locale == Turkic && c == 'i' then '\U{0130}' else (c as int - 32) as char
  }

  /**
   * generateRandomChar as written: (char) (draw + 'a') upper-cased with the
   * JVM's default locale.
   */
  function GenerateRandomCharAsWritten(charDraw: int, locale: Locale): (r: string)
    requires 0 <= charDraw < LetterCount
    ensures |r| == 1
  {
    [LocaleUpperCase(('a' as int + charDraw) as char, locale)]
  }

  /** Under a Turkish or Azerbaijani default locale the draw 8 produces a letter outside A-Z. */
  lemma TurkicLocaleLetterOutsideAZ()
    ensures GenerateRandomCharAsWritten(8, Turkic) == ['\U{0130}']
    ensures !IsUpperLetter(GenerateRandomCharAsWritten(8, Turkic)[0])
  {
  }

  /**
   * generateRandomChar as intended (upper-casing independent of the locale):
   * the draw-th letter of A-Z.
   */
  function GenerateRandomChar(charDraw: int): (r: string)
    requires 0 <= charDraw < LetterCount
    ensures |r| == 1 && IsUpperLetter(r[0])
    ensures r[0] as int - 'A' as int == charDraw
  {
    [('A' as int + charDraw) as char]
  }

  /** Outside the Turkic locales the code as written already behaves as intended. */
  lemma AsWrittenAgreesOutsideTurkic(charDraw: int)
    requires 0 <= charDraw < LetterCount
    ensures GenerateRandomCharAsWritten(charDraw, Root) == GenerateRandomChar(charDraw)
  {
  }

  /** generate(): the numeric draw in decimal followed by the letter. */
  function Generate(intDraw: int, charDraw: int): (r: string)
    requires 0 <= intDraw < IntBound && 0 <= charDraw < LetterCount
    ensures 2 <= |r| <= 6
    ensures IsUpperLetter(r[|r| - 1])
    ensures forall i :: 0 <= i < |r| - 1 ==> IsDigit(r[i])
  {
    IntToStringLength(intDraw, 5);
    IntToString(intDraw) + GenerateRandomChar(charDraw)
  }

  /** generate() as written: the numeric draw in decimal followed by the letter upper-cased in the default locale. */
  function GenerateAsWritten(intDraw: int, charDraw: int, locale: Locale): (r: string)
    requires 0 <= intDraw < IntBound && 0 <= charDraw < LetterCount
    ensures |r| == |IntToString(intDraw)| + 1
    ensures r[..|r| - 1] == IntToString(intDraw)
  {
    IntToString(intDraw) + GenerateRandomCharAsWritten(charDraw, locale)
  }

  /** Outside the Turkic locales the reference as written is the intended one. */
  lemma GenerateAsWrittenOutsideTurkic(intDraw: int, charDraw: int)
    requires 0 <= intDraw < IntBound && 0 <= charDraw < LetterCount
    ensures GenerateAsWritten(intDraw, charDraw, Root) == Generate(intDraw, charDraw)
  {
    AsWrittenAgreesOutsideTurkic(charDraw);
  }

  /** Under a Turkic default locale, letter draw 8 gives a reference that does not end in A-Z. */
  lemma GenerateAsWrittenTurkic(intDraw: int)
    requires 0 <= intDraw < IntBound
    ensures GenerateAsWritten(intDraw, 8, Turkic) != Generate(intDraw, 8)
    ensures !IsUpperLetter(GenerateAsWritten(intDraw, 8, Turkic)[|IntToString(intDraw)|])
  {
    TurkicLocaleLetterOutsideAZ();
    var r := GenerateAsWritten(intDraw, 8, Turkic);
    assert r[|IntToString(intDraw)|] == GenerateRandomCharAsWritten(8, Turkic)[0];
    assert Generate(intDraw, 8)[|IntToString(intDraw)|] == GenerateRandomChar(8)[0];
  }

  /** Splits a reference into its number and its letter index. */
  function ParseReference(r: string): (int, int)
    requires |r| >= 1
    requires forall i :: 0 <= i < |r| - 1 ==> IsDigit(r[i])
  {
    (ParseDecimal(r[..|r| - 1]), r[|r| - 1] as int - 'A' as int)
  }

  /** Dropping the letter and parsing the digits recovers both draws. */
  lemma GenerateRoundTrip(intDraw: int, charDraw: int)
    requires 0 <= intDraw < IntBound && 0 <= charDraw < LetterCount
    ensures ParseReference(Generate(intDraw, charDraw)) == (intDraw, charDraw)
  {
    var r := Generate(intDraw, charDraw);
    assert r[..|r| - 1] == IntToString(intDraw);
    IntToStringRoundTrip(intDraw);
  }

  /** Different draws give different references. */
  lemma GenerateInjective(n1: int, c1: int, n2: int, c2: int)
    requires 0 <= n1 < IntBound && 0 <= c1 < LetterCount
    requires 0 <= n2 < IntBound && 0 <= c2 < LetterCount
    requires Generate(n1, c1) == Generate(n2, c2)
    ensures n1 == n2 && c1 == c2
  {
    GenerateRoundTrip(n1, c1);
    GenerateRoundTrip(n2, c2);
  }
}
