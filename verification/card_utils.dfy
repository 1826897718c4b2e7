/** The card-number helpers of the tracker: grouping a typed number in fours, naming the card
    brand from its issuer prefix, masking a number for display, and the Luhn mod-10 check
    (ISO/IEC 7812-1, Annex B). All of them are pure string functions. */
module CardUtils {
  import opened Seqs
  import opened Text

  function Min(a: int, b: int): int {
    if a <= b then a else b
  }

  // ---------------------------------------------------------------------------
  // Formatting

  /** `v.match(/\d{4,16}/g)?.[0] ?? ""` on a string of digits: the leading run of at most 16
      digits when there are at least 4 of them, otherwise nothing. */
  function LeadingDigitRun(v: string): (m: string)
    requires AllDigits(v)
    ensures AllDigits(m)
    ensures |v| < 4 ==> m == []
    ensures |v| >= 4 ==> |m| == Min(|v|, 16) && 4 <= |m| <= 16 && m == v[..|m|]
  {
    if |v| < 4 then [] else v[..Min(|v|, 16)]
  }

  /** The substrings `m.substring(i, i + 4)` for `i = 0, 4, 8, ...`. */
  function Chunks(m: string): (parts: seq<string>)
    ensures |m| == 0 <==> |parts| == 0
    ensures forall k :: 0 <= k < |parts| ==> 0 < |parts[k]| <= 4
    ensures forall k :: 0 <= k < |parts| - 1 ==> |parts[k]| == 4
    decreases |m|
  {
    if |m| == 0 then []
    else if |m| <= 4 then [m]
    else [m[..4]] + Chunks(m[4..])
  }

  /** `parts.join(" ")`. */
  function JoinWithSpaces(parts: seq<string>): string {
    if |parts| == 0 then ""
    else if |parts| == 1 then parts[0]
    else parts[0] + " " + JoinWithSpaces(parts[1..])
  }

  /** The shape of a formatted card number: a space exactly at positions 4, 9, 14, ... and the
      last character not a space, so every space-separated group has four characters except the
      last, which has one to four. */
  predicate GroupedByFour(r: string) {
    && |r| % 5 != 0
    && forall i :: 0 <= i < |r| ==> (r[i] == ' ' <==> i % 5 == 4)
  }

  /** Past the first group, a formatted number is four digits, a space, and the rest formatted. */
  lemma JoinChunksStep(m: string)
    requires |m| > 4
    ensures JoinWithSpaces(Chunks(m)) == m[..4] + " " + JoinWithSpaces(Chunks(m[4..]))
  {
    assert Chunks(m) == [m[..4]] + Chunks(m[4..]);
    assert |Chunks(m[4..])| > 0;
  }

  /** Joining the four-character chunks of a digit string puts single spaces between groups of
      four digits and nothing else. */
  lemma {:induction false} JoinChunksShape(m: string)
    requires 0 < |m| && AllDigits(m)
    ensures var r := JoinWithSpaces(Chunks(m));
      && GroupedByFour(r)
      && |r| == |m| + (|m| - 1) / 4
      && (forall i :: 0 <= i < |r| ==> r[i] == ' ' || IsDigit(r[i]))
    decreases |m|
  {
    var r := JoinWithSpaces(Chunks(m));
    if |m| <= 4 {
      assert r == m;
    } else {
      var tail := JoinWithSpaces(Chunks(m[4..]));
      JoinChunksShape(m[4..]);
      JoinChunksStep(m);
      assert |r| == 5 + |tail|;
      assert (|m| - 1) / 4 == (|m| - 5) / 4 + 1;
      assert |r| % 5 == |tail| % 5;
      forall i | 0 <= i < |r|
        ensures (r[i] == ' ' <==> i % 5 == 4) && (r[i] == ' ' || IsDigit(r[i]))
      {
        if i >= 5 {
          assert r[i] == tail[i - 5];
          assert (i - 5) % 5 == i % 5;
        } else if i < 4 {
          assert r[i] == m[i];
        }
      }
    }
  }

  /** Removing the spaces from the joined chunks gives the digits back. */
  lemma {:induction false} JoinChunksRemoveSpaces(m: string)
    requires 0 < |m| && AllDigits(m)
    ensures RemoveSpaces(JoinWithSpaces(Chunks(m))) == m
    decreases |m|
  {
    if |m| <= 4 {
      assert JoinWithSpaces(Chunks(m)) == m;
    } else {
      var tail := JoinWithSpaces(Chunks(m[4..]));
      JoinChunksRemoveSpaces(m[4..]);
      JoinChunksStep(m);
      var head := m[..4];
      assert RemoveSpaces(head) == head by {
        assert NoSpaces(head);
      }
      assert RemoveSpaces(" ") == [] by {
        assert !NotSpace(' ');
      }
      assert RemoveSpaces(head + " ") == head by {
        FilterConcat(head, " ", NotSpace);
      }
      assert RemoveSpaces(head + " " + tail) == head + m[4..] by {
        FilterConcat(head + " ", tail, NotSpace);
      }
      assert head + m[4..] == m;
    }
  }

  /** `formatCardNumber`: drop every non-digit, take the leading run of 4 to 16 digits and
      separate it into groups of four; when fewer than 4 digits are typed the input is returned
      as it is, non-digits included. */
  function FormatCardNumber(value: string): (r: string)
    ensures |DigitsOf(value)| < 4 ==> r == value
    ensures |DigitsOf(value)| >= 4 ==>
      && GroupedByFour(r)
      && 5 <= |r| + 1 <= 20
      && (forall i :: 0 <= i < |r| ==> r[i] == ' ' || IsDigit(r[i]))
      && RemoveSpaces(r) == DigitsOf(value)[..Min(|DigitsOf(value)|, 16)]
  {
    var v := DigitsOf(value);
    var parts := Chunks(LeadingDigitRun(v));
    if |parts| > 0 then
      JoinChunksShape(LeadingDigitRun(v));
      JoinChunksRemoveSpaces(LeadingDigitRun(v));
      JoinWithSpaces(parts)
    else
      value
  }

  /** A string of digits and spaces loses the same characters to either stripping. */
  lemma DigitsOfDigitsAndSpaces(r: string)
    requires forall i :: 0 <= i < |r| ==> r[i] == ' ' || IsDigit(r[i])
    ensures DigitsOf(r) == RemoveSpaces(r)
  {
    FilterAgree(r, IsDigit, NotSpace);
  }

  /** Formatting an already formatted number changes nothing. */
  lemma FormatIdempotent(value: string)
    ensures FormatCardNumber(FormatCardNumber(value)) == FormatCardNumber(value)
  {
    var r := FormatCardNumber(value);
    if |DigitsOf(value)| >= 4 {
      var m := LeadingDigitRun(DigitsOf(value));
      DigitsOfDigitsAndSpaces(r);
      assert DigitsOf(r) == m;
      assert LeadingDigitRun(m) == m;
    }
  }

  // ---------------------------------------------------------------------------
  // Brand detection

  const Visa := "Visa"
  const Mastercard := "Mastercard"
  const AmericanExpress := "American Express"
  const Discover := "Discover"
  const Unknown := "Unknown"

  predicate StartsWith(s: string, prefix: string) {
    |prefix| <= |s| && s[..|prefix|] == prefix
  }

  /** `/^4/` */
  predicate VisaPattern(s: string) {
    |s| >= 1 && s[0] == '4'
  }

  /** `/^5[1-5]/` */
  predicate MastercardPattern(s: string) {
    |s| >= 2 && s[0] == '5' && '1' <= s[1] <= '5'
  }

  /** `/^3[47]/` */
  predicate AmexPattern(s: string) {
    |s| >= 2 && s[0] == '3' && (s[1] == '4' || s[1] == '7')
  }

  /** The group after `622` in the Discover pattern, alternative by alternative:
      `12[6-9] | 1[3-9][0-9] | [2-8][0-9]{2} | 9[0-1][0-9] | 92[0-5] | 64[4-9]`.
      The last alternative sits inside the `622` group, so it matches `62264x`, not `64x`. */
  predicate Discover622Tail(t: string) {
    |t| >= 3 && (
      || (t[0] == '1' && t[1] == '2' && '6' <= t[2] <= '9')
      || (t[0] == '1' && '3' <= t[1] <= '9' && IsDigit(t[2]))
      || ('2' <= t[0] <= '8' && IsDigit(t[1]) && IsDigit(t[2]))
      || (t[0] == '9' && '0' <= t[1] <= '1' && IsDigit(t[2]))
      || (t[0] == '9' && t[1] == '2' && '0' <= t[2] <= '5')
      || (t[0] == '6' && t[1] == '4' && '4' <= t[2] <= '9'))
  }

  /** `/^(6011|622(...)|65)/` as written. */
  predicate DiscoverPattern(s: string) {
    || StartsWith(s, "6011")
    || (StartsWith(s, "622") && Discover622Tail(s[3..]))
    || StartsWith(s, "65")
  }

  /** The Discover ranges stated numerically: the first six characters are digits whose
      value lies in 622126..622925. */
  predicate InDiscover622Range(s: string) {
    |s| >= 6 && AllDigits(s[..6]) && 622126 <= DecimalValue(s[..6]) <= 622925
  }

  /** The value of a six-digit string, digit by digit. */
  lemma SixDigitValue(d: string)
    requires |d| == 6 && AllDigits(d)
    ensures DecimalValue(d) ==
      100000 * DigitValue(d[0]) + 10000 * DigitValue(d[1]) + 1000 * DigitValue(d[2])
      + 100 * DigitValue(d[3]) + 10 * DigitValue(d[4]) + DigitValue(d[5])
  {
    assert d[..5][..4] == d[..4] && d[..4][..3] == d[..3] && d[..3][..2] == d[..2];
    assert d[..2][..1] == d[..1] && d[..1][..0] == [];
    assert DecimalValue(d[..1]) == DigitValue(d[0]);
    assert DecimalValue(d[..2]) == 10 * DecimalValue(d[..1]) + DigitValue(d[1]);
    assert DecimalValue(d[..3]) == 10 * DecimalValue(d[..2]) + DigitValue(d[2]);
    assert DecimalValue(d[..4]) == 10 * DecimalValue(d[..3]) + DigitValue(d[3]);
    assert DecimalValue(d[..5]) == 10 * DecimalValue(d[..4]) + DigitValue(d[4]);
    assert DecimalValue(d) == 10 * DecimalValue(d[..5]) + DigitValue(d[5]);
  }

  /** The regular expression's Discover alternatives are exactly `6011`, `65` and the numeric
      range 622126..622925. In particular the `64[4-9]` branch adds nothing: `62264x` already
      lies in the range, and a bare `644`..`649` prefix is not Discover. */
  lemma {:induction false} DiscoverPatternIsRange(s: string)
    ensures DiscoverPattern(s) <==> StartsWith(s, "6011") || StartsWith(s, "65") || InDiscover622Range(s)
  {
    if |s| >= 6 && AllDigits(s[..6]) {
      SixDigitValue(s[..6]);
      assert s[..6][..3] == s[..3];
      assert s[3..][..3] == s[..6][3..6];
    }
    if StartsWith(s, "622") && Discover622Tail(s[3..]) {
      assert |s| >= 6;
      assert s[..6] == s[..3] + s[3..][..3];
      assert AllDigits(s[..6]);
    }
  }

  /** `detectCardType`: the four patterns tried in order, first match wins. Their first
      characters differ, so at most one of them matches and each answer holds exactly when its
      own pattern does, whatever the order. */
  function DetectCardType(number: string): (r: string)
    ensures r in {Visa, Mastercard, AmericanExpress, Discover, Unknown}
    ensures r == Visa <==> VisaPattern(number)
    ensures r == Mastercard <==> MastercardPattern(number)
    ensures r == AmericanExpress <==> AmexPattern(number)
    ensures r == Discover <==>
      StartsWith(number, "6011") || StartsWith(number, "65") || InDiscover622Range(number)
    ensures r == Unknown <==>
      !VisaPattern(number) && !MastercardPattern(number) && !AmexPattern(number) && !DiscoverPattern(number)
  {
    DiscoverPatternIsRange(number);
    if VisaPattern(number) then Visa
    else if MastercardPattern(number) then Mastercard
    else if AmexPattern(number) then AmericanExpress
    else if DiscoverPattern(number) then Discover
    else Unknown
  }

  /** Prefixes 644 to 649, which the Discover ranges published by the issuer include, are
      reported as Unknown because of where the `64[4-9]` branch is placed. */
  lemma Prefix644To649IsUnknown(number: string)
    requires |number| >= 3 && number[0] == '6' && number[1] == '4' && '4' <= number[2] <= '9'
    ensures DetectCardType(number) == Unknown
  {
    assert !StartsWith(number, "6011") && !StartsWith(number, "65");
    assert !InDiscover622Range(number) by {
      if |number| >= 6 && AllDigits(number[..6]) {
        SixDigitValue(number[..6]);
      }
    }
  }

  /** A bare `644` .. `649` prefix, the Discover range the misplaced branch was meant to add. */
  predicate Prefix644To649(s: string) {
    |s| >= 3 && s[0] == '6' && s[1] == '4' && '4' <= s[2] <= '9'
  }

  /** Brand detection with `64[4-9]` as an alternative of its own, beside `6011`, `622...` and
      `65`: every prefix the Discover pattern was evidently meant to cover is Discover. */
  function DetectCardTypeIntended(number: string): (r: string)
    ensures r in {Visa, Mastercard, AmericanExpress, Discover, Unknown}
    ensures r == Discover <==>
      StartsWith(number, "6011") || StartsWith(number, "65") || InDiscover622Range(number)
      || Prefix644To649(number)
    ensures !Prefix644To649(number) ==> r == DetectCardType(number)
  {
    if Prefix644To649(number) then Discover else DetectCardType(number)
  }

  // ---------------------------------------------------------------------------
  // Masking

  /** `s.slice(-k)`: the last `k` characters, or all of `s` when it is shorter. Since `-0` is
      `0`, `slice(-0)` starts at the front and returns the whole string. */
  function SliceLast(s: string, k: nat): (r: string)
    ensures k > 0 ==> |r| == Min(k, |s|)
    ensures k == 0 ==> r == s
    ensures s == s[..|s| - |r|] + r
  {
    if k == 0 || |s| < k then s else s[|s| - k..]
  }

  const Bullets := "\U{2022}\U{2022}\U{2022}\U{2022}"
  const MaskPrefix := Bullets + " " + Bullets + " " + Bullets + " "

  /** `maskCardNumber`: three groups of bullets whatever the card's length, then the number's
      last four characters. */
  function MaskCardNumber(number: string): (r: string)
    ensures |MaskPrefix| == 15 && |r| == 15 + Min(4, |number|)
    ensures r[..15] == MaskPrefix
    ensures |number| >= 4 ==> r[15..] == number[|number| - 4..]
    ensures |number| < 4 ==> r[15..] == number
  {
    MaskPrefix + SliceLast(number, 4)
  }

  /** Only the last four characters reach the masked display. */
  lemma MaskSeesOnlyLastFour(a: string, b: string)
    requires |a| >= 4 && |b| >= 4 && a[|a| - 4..] == b[|b| - 4..]
    ensures MaskCardNumber(a) == MaskCardNumber(b)
  {
    var ra, rb := MaskCardNumber(a), MaskCardNumber(b);
    assert ra == ra[..15] + ra[15..] && rb == rb[..15] + rb[15..];
  }

  // ---------------------------------------------------------------------------
  // Luhn check

  /** One digit's share of the Luhn sum: its value, or when doubled, twice its value less 9
      if that exceeds 9. */
  function LuhnDigit(c: char, doubled: bool): (v: nat)
    requires IsDigit(c)
    ensures v <= 9
    ensures !doubled ==> v == DigitValue(c)
    ensures doubled ==> v % 9 == (2 * DigitValue(c)) % 9 && (v == 0 <==> c == '0')
  {
    var d := DigitValue(c);
    if doubled then (if 2 * d > 9 then 2 * d - 9 else 2 * d) else d
  }

  /** The Luhn sum of a digit string: positions are counted from the right, and every second
      one (the last but one, the last but three, ...) is doubled. */
  function LuhnSum(d: string): nat
    requires AllDigits(d)
  {
    if |d| == 0 then 0 else LuhnDigit(d[0], (|d| - 1) % 2 == 1) + LuhnSum(d[1..])
  }

  /** A card number passes the Luhn check when it has at least one digit and the Luhn sum of
      its digits is a multiple of ten; everything but the digits is ignored. */
  predicate IsLuhnValid(number: string) {
    var d := DigitsOf(number);
    |d| > 0 && LuhnSum(d) % 10 == 0
  }

  /** `validateCardNumber`: strip the non-digits, give up on an empty result, then walk the
      digits from the right, doubling every second one. */
  method ValidateCardNumber(number: string) returns (valid: bool)
    ensures valid <==> IsLuhnValid(number)
    ensures DigitsOf(number) == [] ==> !valid
  {
    var digits := DigitsOf(number);
    if |digits| == 0 {
      return false;
    }
    var sum := 0;
    var shouldDouble := false;
    var i := |digits| - 1;
    while i >= 0
      invariant -1 <= i < |digits|
      invariant sum == LuhnSum(digits[i + 1..])
      invariant shouldDouble <==> (|digits| - 1 - i) % 2 == 1
    {
      assert digits[i..][1..] == digits[i + 1..];
      var digit := DigitValue(digits[i]);
      if shouldDouble {
        digit := digit * 2;
        if digit > 9 {
          digit := digit - 9;
        }
      }
      sum := sum + digit;
      shouldDouble := !shouldDouble;
      i := i - 1;
    }
    assert digits[0..] == digits;
    return sum % 10 == 0;
  }

  /** The check gives the same answer for a number and for its digits alone. */
  lemma LuhnIgnoresNonDigits(number: string)
    ensures IsLuhnValid(number) == IsLuhnValid(DigitsOf(number))
  {
    DigitsOfIdempotent(number);
  }
}
