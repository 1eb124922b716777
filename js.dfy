/**
 * JavaScript runtime notions the service relies on: optional values
 * (`undefined`), truthiness of strings and numbers, thrown values and the
 * `error?.message || 'Unknown error'` idiom, the `\s` character class,
 * `[a-zA-Z0-9]`, and `String(n)` for non-negative integers.
 */
module Js {

  /** An optional field or value: `undefined` is `None`. */
  datatype Option<+T> = None | Some(value: T)

  /** A string is truthy when it is present and not empty. */
  predicate TruthyString(s: Option<string>)
  {
    s.Some? && s.value != ""
  }

  /** A number is truthy when it is present and not zero (NaN is not modelled). */
  predicate TruthyNumber(x: Option<real>)
  {
    x.Some? && x.value != 0.0
  }

  /** `stored` is what `given || null` stores: the given string when it is truthy, NULL otherwise. */
  predicate StringStoredOrNull(stored: Option<string>, given: Option<string>)
  {
    (stored.Some? <==> TruthyString(given)) && (stored.Some? ==> stored == given)
  }

  /** `stored` is what `given || null` stores: the given number when it is truthy, NULL otherwise. */
  predicate NumberStoredOrNull(stored: Option<real>, given: Option<real>)
  {
    (stored.Some? <==> TruthyNumber(given)) && (stored.Some? ==> stored == given)
  }

  /** `s || null`: a falsy string is stored as SQL NULL. */
  function StringOrNull(s: Option<string>): (r: Option<string>)
    ensures StringStoredOrNull(r, s)
  {
    if TruthyString(s) then s else None
  }

  /** `x || null`: a falsy number is stored as SQL NULL. */
  function NumberOrNull(x: Option<real>): (r: Option<real>)
    ensures NumberStoredOrNull(r, x)
  {
    if TruthyNumber(x) then x else None
  }

  /** A value caught by `catch`: an `Error` instance, or anything else, which may or may not carry a `message`. */
  datatype Thrown = ErrorObject(message: string) | OtherValue(maybeMessage: Option<string>)

  /** The outcome of a call that either returns a value or throws. */
  datatype Outcome<+T> = Returned(value: T) | Threw(error: Thrown)

  const UnknownError: string := "Unknown error"

  /** `error?.message || 'Unknown error'`. */
  function MessageOrUnknown(t: Thrown): (m: string)
    ensures m != ""
    ensures t.ErrorObject? && t.message != "" ==> m == t.message
    ensures t.OtherValue? && TruthyString(t.maybeMessage) ==> m == t.maybeMessage.value
    ensures m != UnknownError ==> (t.ErrorObject? && m == t.message) || (t.OtherValue? && t.maybeMessage == Some(m))
  {
    match t
    case ErrorObject(msg) => if msg != "" then msg else UnknownError
    case OtherValue(msg) => if TruthyString(msg) then msg.value else UnknownError
  }

  /** `error instanceof Error ? error.message : 'Unknown error'`. */
  function ErrorMessageOrUnknown(t: Thrown): (m: string)
    ensures t.ErrorObject? ==> m == t.message
    ensures t.OtherValue? ==> m == UnknownError
  {
    if t.ErrorObject? then t.message else UnknownError
  }

  /** `s.indexOf(c)`, except that a missing character gives `|s|` rather than -1. */
  function IndexOf(s: string, c: char): (i: nat)
    ensures i <= |s|
    ensures forall k :: 0 <= k < i ==> s[k] != c
    ensures i < |s| ==> s[i] == c
  {
    if s == [] then 0
    else if s[0] == c then 0
    else 1 + IndexOf(s[1..], c)
  }

  /**
   * The characters of the regular-expression class `\s` (ECMAScript
   * WhiteSpace and LineTerminator); `String.prototype.trim` strips the same set.
   */
  predicate IsWhitespace(c: char)
  {
    c == '\t' || c == '\n' || c == '\U{B}' || c == '\U{C}' || c == '\r' || c == ' '
    || c == '\U{A0}' || c == '\U{1680}' || ('\U{2000}' <= c <= '\U{200A}')
    || c == '\U{2028}' || c == '\U{2029}' || c == '\U{202F}' || c == '\U{205F}'
    || c == '\U{3000}' || c == '\U{FEFF}'
  }

  /** The character class `[a-zA-Z0-9]`. */
  predicate IsAsciiAlnum(c: char)
  {
    ('a' <= c <= 'z') || ('A' <= c <= 'Z') || ('0' <= c <= '9')
  }

  predicate IsDigit(c: char)
  {
    '0' <= c <= '9'
  }

  function DigitChar(d: nat): (c: char)
    requires d < 10
    ensures IsDigit(c) && (c as int) - ('0' as int) == d
  {
    (('0' as int) + d) as char
  }

  /** `String(n)` for a non-negative integer: its decimal digits, without leading zeros. */
  function Decimal(n: nat): (s: string)
    ensures |s| >= 1
    ensures forall k :: 0 <= k < |s| ==> IsDigit(s[k])
    ensures s[0] == '0' ==> n == 0
    decreases n
  {
    if n < 10 then [DigitChar(n)] else Decimal(n / 10) + [DigitChar(n % 10)]
  }

  /** The number a string of decimal digits denotes. */
  function DecimalValue(s: string): nat
    requires forall k :: 0 <= k < |s| ==> IsDigit(s[k])
  {
    if s == [] then 0
    else
      assert IsDigit(s[|s| - 1]);
      10 * DecimalValue(s[..|s| - 1]) + ((s[|s| - 1] as int) - ('0' as int))
  }

  /** Reading back the decimal form of `n` gives `n`. */
  lemma {:induction false} DecimalRoundTrip(n: nat)
    ensures DecimalValue(Decimal(n)) == n
    decreases n
  {
    var s := Decimal(n);
    if n >= 10 {
      DecimalRoundTrip(n / 10);
      assert s[..|s| - 1] == Decimal(n / 10);
    }
  }

  /** Distinct numbers have distinct decimal forms. */
  lemma DecimalInjective(m: nat, n: nat)
    requires Decimal(m) == Decimal(n)
    ensures m == n
  {
    DecimalRoundTrip(m);
    DecimalRoundTrip(n);
  }
}
