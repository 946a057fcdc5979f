/**
 * The small shared vocabulary of the bank service: the two enums, dates,
 * money, nullable strings, the exceptions the core raises, and the pieces of
 * java.lang behaviour (String.hashCode, HashCodeBuilder, equalsIgnoreCase)
 * that the entities and services rely on.
 */
module BankTypes {
  import opened Wrappers

  /** The lifecycle states of a transaction (Status.java). */
  datatype Status = PENDING | SETTLED | FUTURE | INVALID

  /** Who asks for a status (Channel.java). */
  datatype Channel = CLIENT | ATM | INTERNAL

  /**
   * A LocalDateTime (or java.util.Date): a day number and the second within
   * that day. Only the day takes part in status derivation.
   */
  datatype DateTime = DateTime(day: int, secondOfDay: nat)

  /** LocalDateTime.toLocalDate() */
  function ToLocalDate(d: DateTime): int {
    d.day
  }

  /** An amount of money in cents (the source keeps doubles). */
  type Money = int

  /** A Java String reference, which may be null. */
  type JString = Option<string>

  /** StringUtils.isEmpty: null or of length zero. */
  predicate IsEmpty(s: JString) {
    s.None? || |s.value| == 0
  }

  /** The exceptions the core throws. */
  datatype Error =
    | BadRequest(reason: string)                    // ResponseStatusException(BAD_REQUEST, reason)
    | DataNotFound(objectType: string, id: string)  // DataNotFoundException(objectType, id)
    | IllegalState(message: string)                 // IllegalStateException thrown by validate()
  {
    /** The exception's message. */
    function Message(): string {
      match this
      case BadRequest(reason) => reason
      case DataNotFound(objectType, id) => "Could not find " + objectType + " using " + id
      case IllegalState(message) => message
    }
  }

  /** The message of DataNotFoundException for the test's arguments. */
  lemma DataNotFoundMessageExample()
    ensures DataNotFound("type", "abc").Message() == "Could not find type using abc"
  {
  }

  /** For one object type, the DataNotFoundException message names the id unambiguously. */
  lemma DataNotFoundMessageInjective(objectType: string, id1: string, id2: string)
    requires DataNotFound(objectType, id1).Message() == DataNotFound(objectType, id2).Message()
    ensures id1 == id2
  {
    var prefix := "Could not find " + objectType + " using ";
    var m1, m2 := prefix + id1, prefix + id2;
    assert m1[|prefix|..] == id1;
    assert m2[|prefix|..] == id2;
  }

  /** The date a builder stores: the one it was given, or "now" when it was given null. */
  function DateOrNow(date: Option<DateTime>, now: DateTime): (r: DateTime)
    ensures date.Some? ==> r == date.value
    ensures date.None? ==> r == now
  {
    date.GetOr(now)
  }

  // ---------------------------------------------------------------------
  // 32-bit hashing as java.lang.String.hashCode and HashCodeBuilder do it
  // ---------------------------------------------------------------------

  const TwoTo31: int := 0x8000_0000
  const TwoTo32: int := 0x1_0000_0000

  /** Two's-complement wrap-around of a Java int computation. */
  function Wrap32(x: int): (r: int)
    ensures -TwoTo31 <= r < TwoTo31
    ensures (x - r) % TwoTo32 == 0
    ensures -TwoTo31 <= x < TwoTo31 ==> r == x
  {
    (x + TwoTo31) % TwoTo32 - TwoTo31
  }

  /** String.hashCode(): s[0]*31^(n-1) + ... + s[n-1], in int arithmetic. */
  function StringHash(s: string): (r: int)
    ensures -TwoTo31 <= r < TwoTo31
  {
    if s == [] then 0 else Wrap32(31 * StringHash(s[..|s| - 1]) + s[|s| - 1] as int)
  }

  /** new HashCodeBuilder(17, 37) */
  const HashSeed: int := 17
  const HashMultiplier: int := 37

  /** HashCodeBuilder.append: a null field contributes 0. */
  function HashAppend(total: int, fieldHash: Option<int>): int {
    Wrap32(total * HashMultiplier + fieldHash.GetOr(0))
  }

  /** The hash of a nullable String field. */
  function JStringHash(s: JString): Option<int> {
    match s
    case None => None
    case Some(v) => Some(StringHash(v))
  }

  // ---------------------------------------------------------------------
  // String.equalsIgnoreCase
  // ---------------------------------------------------------------------

  /**
   * Character.toUpperCase restricted to the letters that can fold onto an
   * ASCII letter: a-z, LATIN SMALL LETTER LONG S (to S) and LATIN SMALL
   * LETTER DOTLESS I (to I).
   */
  function UpperCase(c: char): char {
    if 'a' <= c <= 'z' then (c as int - 32) as char
    else if c == 'ſ' then 'S'
    else if c == 'ı' then 'I'
    else c
  }

  predicate CharEqualsIgnoreCase(a: char, b: char) {
    a == b || UpperCase(a) == UpperCase(b)
  }

  /** token.equalsIgnoreCase(s): false when s is null. */
  predicate EqualsIgnoreCase(token: string, s: JString) {
    s.Some? && |s.value| == |token|
    && forall i :: 0 <= i < |token| ==> CharEqualsIgnoreCase(token[i], s.value[i])
  }

  /** Upper- and lower-case spellings of the same token accept exactly the same strings. */
  lemma EqualsIgnoreCaseSpelling(lower: string, upper: string, s: JString)
    requires |lower| == |upper|
    requires forall i :: 0 <= i < |lower| ==> 'a' <= lower[i] <= 'z' && upper[i] == UpperCase(lower[i])
    ensures EqualsIgnoreCase(lower, s) <==> EqualsIgnoreCase(upper, s)
  {
  }
}
