/** Character classes and digit strings, as JavaScript's regular expressions and `toString` see them. */
module Text {
  import opened Seqs

  /** The class `\d`: the ASCII decimal digits only. */
  predicate IsDigit(c: char) {
    '0' <= c <= '9'
  }

  /** The class `\s`, which is also the set of characters `String.prototype.trim` strips:
      ECMAScript WhiteSpace (tab, vertical tab, form feed, the space separators, the byte order mark)
      and LineTerminator (line feed, carriage return, line and paragraph separator). */
  predicate IsSpace(c: char) {
    || c == '\t' || c == '\n' || c == '\U{000B}' || c == '\U{000C}' || c == '\r'
    || c == ' ' || c == '\U{00A0}' || c == '\U{1680}'
    || ('\U{2000}' <= c <= '\U{200A}')
    || c == '\U{2028}' || c == '\U{2029}' || c == '\U{202F}' || c == '\U{205F}'
    || c == '\U{3000}' || c == '\U{FEFF}'
  }

  predicate AllDigits(s: string) {
    forall i :: 0 <= i < |s| ==> IsDigit(s[i])
  }

  predicate NotSpace(c: char) {
    !IsSpace(c)
  }

  predicate NoSpaces(s: string) {
    forall i :: 0 <= i < |s| ==> !IsSpace(s[i])
  }

  /** `s.trim() == ""`: nothing but white space. */
  predicate IsBlank(s: string) {
    forall i :: 0 <= i < |s| ==> IsSpace(s[i])
  }

  /** `s.replace(/\D/g, "")`: the digits of `s`, in order. */
  function DigitsOf(s: string): (d: string)
    ensures AllDigits(d)
    ensures |d| <= |s|
    ensures AllDigits(s) ==> d == s
    ensures (forall i :: 0 <= i < |s| ==> !IsDigit(s[i])) ==> d == []
  {
    FilterAllOrNone(s, IsDigit);
    Filter(s, IsDigit)
  }

  /** `s.replace(/\s/g, "")`: `s` with every white-space character removed. */
  function RemoveSpaces(s: string): (r: string)
    ensures NoSpaces(r)
    ensures |r| <= |s|
    ensures NoSpaces(s) ==> r == s
  {
    FilterAllOrNone(s, NotSpace);
    Filter(s, NotSpace)
  }

  /** `DigitsOf` keeps every digit, in order: it works character by character over the
      string, and a single character stays exactly when it is a digit. */
  lemma {:induction false} DigitsOfInOrder(a: string, b: string, c: char)
    ensures DigitsOf(a + b) == DigitsOf(a) + DigitsOf(b)
    ensures DigitsOf([c]) == (if IsDigit(c) then [c] else [])
  {
    FilterConcat(a, b, IsDigit);
  }

  /** `RemoveSpaces` keeps every other character, in order: it works character by character,
      and a single character stays exactly when it is not white space. */
  lemma {:induction false} RemoveSpacesInOrder(a: string, b: string, c: char)
    ensures RemoveSpaces(a + b) == RemoveSpaces(a) + RemoveSpaces(b)
    ensures RemoveSpaces([c]) == (if IsSpace(c) then [] else [c])
  {
    FilterConcat(a, b, NotSpace);
  }

  /** Stripping non-digits twice is stripping them once. */
  lemma DigitsOfIdempotent(s: string)
    ensures DigitsOf(DigitsOf(s)) == DigitsOf(s)
  {
  }

  function DigitValue(c: char): (v: nat)
    requires IsDigit(c)
    ensures v < 10
  {
    c as int - '0' as int
  }

  function DigitChar(v: nat): (c: char)
    requires v < 10
    ensures IsDigit(c) && DigitValue(c) == v
  {
    ('0' as int + v) as char
  }

  /** The number a digit string denotes in base 10, most significant digit first. */
  function DecimalValue(d: string): nat
    requires AllDigits(d)
  {
    if |d| == 0 then 0 else 10 * DecimalValue(d[..|d| - 1]) + DigitValue(d[|d| - 1])
  }

  /** `n.toString()` for a non-negative integer: a non-empty digit string that reads back as `n`. */
  function DecimalString(n: nat): (s: string)
    ensures |s| > 0 && AllDigits(s)
    ensures DecimalValue(s) == n
    ensures s[0] == '0' ==> s == "0"
  {
    if n < 10 then [DigitChar(n)]
    else
      var s := DecimalString(n / 10) + [DigitChar(n % 10)];
      assert s[..|s| - 1] == DecimalString(n / 10);
      s
  }

  /** Distinct numbers print differently, so identifiers drawn from distinct clock readings differ. */
  lemma DecimalStringInjective(a: nat, b: nat)
    requires DecimalString(a) == DecimalString(b)
    ensures a == b
  {
    assert DecimalValue(DecimalString(a)) == a;
  }
}
