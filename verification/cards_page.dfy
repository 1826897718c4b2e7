/** The cards page: the card form, its input handlers and the checks `handleAddCard` makes
    before it stores a card. The page carries its own copies of `formatCardNumber` and
    `detectCardType`; they are character for character the library's, so the library models
    are used for both. */
module CardsPage {
  import opened Wrappers
  import opened Text
  import opened CardUtils
  import opened Finance

  /** The five text fields of the dialog. */
  datatype CardForm = CardForm(
    cardNumber: string, cardholderName: string, expiryMonth: string, expiryYear: string, cvv: string)

  const EmptyCardForm := CardForm("", "", "", "", "")

  /** Why `handleAddCard` refused the form. */
  datatype CardError = MissingField | InvalidNumber | InvalidCvv

  /** `handleCardNumberChange`: the field shows the formatted input; nothing else changes. */
  function EnterCardNumber(form: CardForm, raw: string): (f: CardForm)
    ensures |DigitsOf(raw)| < 4 ==> f.cardNumber == raw
    ensures |DigitsOf(raw)| >= 4 ==>
      RemoveSpaces(f.cardNumber) == DigitsOf(raw)[..Min(|DigitsOf(raw)|, 16)]
    ensures |DigitsOf(raw)| >= 4 ==> GroupedByFour(f.cardNumber) && |f.cardNumber| <= 19
    ensures f.(cardNumber := form.cardNumber) == form
  {
    form.(cardNumber := FormatCardNumber(raw))
  }

  /** The CVV field's `onChange`: only the digits of the input are kept. */
  function EnterCvv(form: CardForm, raw: string): (f: CardForm)
    ensures AllDigits(f.cvv) && |f.cvv| <= |raw|
    ensures AllDigits(raw) ==> f.cvv == raw
    ensures f.(cvv := form.cvv) == form
  {
    form.(cvv := DigitsOf(raw))
  }

  predicate HasEmptyField(f: CardForm) {
    f.cardNumber == "" || f.cardholderName == "" || f.expiryMonth == "" || f.expiryYear == "" || f.cvv == ""
  }

  /** The card `handleAddCard` derives from the form: the number without white space, the brand
      detected on it and its last four characters. */
  function CardOf(f: CardForm): (c: CardFields)
    ensures c.cardNumber == RemoveSpaces(f.cardNumber) && NoSpaces(c.cardNumber)
    ensures c.cardholderName == f.cardholderName
    ensures c.expiryMonth == f.expiryMonth && c.expiryYear == f.expiryYear
    ensures c.cardType == DetectCardType(c.cardNumber)
    ensures |c.cardNumber| >= 4 ==> c.lastFourDigits == c.cardNumber[|c.cardNumber| - 4..]
  {
    var clean := RemoveSpaces(f.cardNumber);
    CardFields(clean, f.cardholderName, f.expiryMonth, f.expiryYear, DetectCardType(clean), SliceLast(clean, 4))
  }

  /** `handleAddCard`: the checks in the source's order, then `addCard`. */
  function SubmitCard(s: State, f: CardForm, now: nat): (r: Result<State, CardError>)
    ensures r == Failure(MissingField) <==> HasEmptyField(f)
    ensures r == Failure(InvalidNumber) <==> !HasEmptyField(f) && |RemoveSpaces(f.cardNumber)| < 16
    ensures r == Failure(InvalidCvv) <==>
      !HasEmptyField(f) && |RemoveSpaces(f.cardNumber)| >= 16 && |f.cvv| < 3
    ensures r.Success? ==>
      && |RemoveSpaces(f.cardNumber)| >= 16 && |f.cvv| >= 3
      && r.value == AddCard(s, CardOf(f), now)
  {
    if HasEmptyField(f) then Failure(MissingField)
    else if |RemoveSpaces(f.cardNumber)| < 16 then Failure(InvalidNumber)
    else if |f.cvv| < 3 then Failure(InvalidCvv)
    else Success(AddCard(s, CardOf(f), now))
  }

  /** A number typed with at least four digits and accepted is stored as exactly sixteen digits:
      the first sixteen of the input. */
  lemma AcceptedNumberHasSixteenDigits(s: State, f: CardForm, raw: string, now: nat)
    requires |DigitsOf(raw)| >= 4
    requires SubmitCard(s, EnterCardNumber(f, raw), now).Success?
    ensures var stored := CardOf(EnterCardNumber(f, raw)).cardNumber;
      stored == DigitsOf(raw)[..16] && |stored| == 16 && AllDigits(stored)
  {
  }

  /** Fifteen typed digits are refused as an invalid number, whatever the other fields hold. */
  lemma FifteenDigitsRejected(s: State, f: CardForm, raw: string, now: nat)
    requires |DigitsOf(raw)| == 15
    ensures !HasEmptyField(EnterCardNumber(f, raw)) ==>
      SubmitCard(s, EnterCardNumber(f, raw), now) == Failure(InvalidNumber)
  {
  }

  /** No Luhn check or other test of the digits is made: two forms that differ only in card
      numbers of the same cleaned length are accepted or refused alike. */
  lemma AcceptanceIgnoresNumberContent(s: State, f: CardForm, number: string, now: nat)
    requires (number == "") == (f.cardNumber == "")
    requires |RemoveSpaces(number)| == |RemoveSpaces(f.cardNumber)|
    ensures SubmitCard(s, f.(cardNumber := number), now).Success? == SubmitCard(s, f, now).Success?
  {
  }

  /** A word of lower-case Latin letters has no digits and no white space, and no brand
      pattern matches it. */
  lemma LowerCaseWord(w: string)
    requires forall i :: 0 <= i < |w| ==> 'a' <= w[i] <= 'z'
    ensures DigitsOf(w) == [] && RemoveSpaces(w) == w
    ensures DetectCardType(w) == Unknown
  {
    assert !StartsWith(w, "6011") by {
      if |w| >= 4 { assert w[..4][0] == w[0]; }
    }
    assert !StartsWith(w, "622") by {
      if |w| >= 3 { assert w[..3][0] == w[0]; }
    }
    assert !StartsWith(w, "65") by {
      if |w| >= 2 { assert w[..2][0] == w[0]; }
    }
  }

  /** With fewer than four digits the formatter hands the input back unchanged, so a word of
      sixteen or more letters typed into the number field passes the length check and is
      stored as the card's number, brand Unknown. */
  lemma LettersAccepted(s: State, f: CardForm, w: string, now: nat)
    requires |w| >= 16 && forall i :: 0 <= i < |w| ==> 'a' <= w[i] <= 'z'
    requires f.cardholderName != "" && f.expiryMonth != "" && f.expiryYear != "" && |f.cvv| >= 3
    ensures var g := EnterCardNumber(f, w);
      && g.cardNumber == w
      && SubmitCard(s, g, now).Success?
      && CardOf(g).cardNumber == w
      && CardOf(g).cardType == Unknown
  {
    LowerCaseWord(w);
  }

  /** `handleAddCard` as evidently intended: a card number must consist of digits, and the
      Discover ranges include the 644 to 649 prefixes. */
  function SubmitCardIntended(s: State, f: CardForm, now: nat): (r: Result<State, CardError>)
    ensures r == Failure(MissingField) <==> HasEmptyField(f)
    ensures r == Failure(InvalidNumber) <==>
      !HasEmptyField(f) && (|RemoveSpaces(f.cardNumber)| < 16 || !AllDigits(RemoveSpaces(f.cardNumber)))
    ensures r.Success? ==>
      var c := CardOf(f).(cardType := DetectCardTypeIntended(RemoveSpaces(f.cardNumber)));
      && AllDigits(c.cardNumber) && |c.cardNumber| >= 16 && |f.cvv| >= 3
      && r.value == AddCard(s, c, now)
  {
    var clean := RemoveSpaces(f.cardNumber);
    if HasEmptyField(f) then Failure(MissingField)
    else if |clean| < 16 || !AllDigits(clean) then Failure(InvalidNumber)
    else if |f.cvv| < 3 then Failure(InvalidCvv)
    else Success(AddCard(s, CardOf(f).(cardType := DetectCardTypeIntended(clean)), now))
  }

  /** Under the intended checks every number that gets through the card-number field and is
      accepted is sixteen digits, letters included or not in what was typed. */
  lemma IntendedAcceptsOnlySixteenDigits(s: State, f: CardForm, raw: string, now: nat)
    requires SubmitCardIntended(s, EnterCardNumber(f, raw), now).Success?
    ensures var stored := RemoveSpaces(EnterCardNumber(f, raw).cardNumber);
      |stored| == 16 && AllDigits(stored) && stored <= DigitsOf(raw)
  {
    var g := EnterCardNumber(f, raw);
    RemoveSpacesOfDigits(raw);
    assert |DigitsOf(raw)| >= 4;
    assert RemoveSpaces(g.cardNumber) == DigitsOf(raw)[..Min(|DigitsOf(raw)|, 16)];
  }

  /** When what is left of a string after removing white space is all digits, it is the
      string's digits. */
  lemma {:induction false} RemoveSpacesOfDigits(raw: string)
    ensures AllDigits(RemoveSpaces(raw)) ==> RemoveSpaces(raw) == DigitsOf(raw)
  {
    if |raw| > 0 && AllDigits(RemoveSpaces(raw)) {
      assert raw == [raw[0]] + raw[1..];
      var rest := raw[1..];
      assert RemoveSpaces(raw) == (if NotSpace(raw[0]) then [raw[0]] else []) + RemoveSpaces(rest);
      assert DigitsOf(raw) == (if IsDigit(raw[0]) then [raw[0]] else []) + DigitsOf(rest);
      assert AllDigits(RemoveSpaces(rest)) by {
        var k := if NotSpace(raw[0]) then 1 else 0;
        forall i | 0 <= i < |RemoveSpaces(rest)|
          ensures IsDigit(RemoveSpaces(rest)[i])
        {
          assert RemoveSpaces(rest)[i] == RemoveSpaces(raw)[i + k];
        }
      }
      RemoveSpacesOfDigits(rest);
      if NotSpace(raw[0]) {
        assert RemoveSpaces(raw)[0] == raw[0];
      }
    }
  }

  /** On a form of digits the intended checks and the written ones agree, apart from the brand
      reported for the 644 to 649 prefixes. */
  lemma IntendedAgreesOnDigitNumbers(s: State, f: CardForm, now: nat)
    requires AllDigits(RemoveSpaces(f.cardNumber))
    requires !Prefix644To649(RemoveSpaces(f.cardNumber))
    ensures SubmitCardIntended(s, f, now) == SubmitCard(s, f, now)
  {
  }
}
