/**
 * The card payment form: the input sanitisers for card number, expiry and CVV, the guard of the
 * card payment, and the records the form hands to its `onPaymentComplete` callback.
 */
module PaymentForm {
  import opened Wrappers
  import opened Text

  /** The object passed to `onPaymentComplete`; `cardLast4` is only present for a card payment. */
  datatype CompletedPayment = CompletedPayment(
    transactionId: string, payMethod: string, amount: real, paymentType: string, cardLast4: Option<string>)

  /** The card number input: digits only, at most 16 of them. */
  function SanitizeCard(input: string): (card: string)
    ensures |card| <= 16 && AllDigits(card)
    ensures AllDigits(input) && |input| <= 16 ==> card == input
  {
    Take(DigitsOnly(input), 16)
  }

  /** The CVV input: digits only, at most 4 of them. */
  function SanitizeCvv(input: string): (cvv: string)
    ensures |cvv| <= 4 && AllDigits(cvv)
    ensures AllDigits(input) && |input| <= 4 ==> cvv == input
  {
    Take(DigitsOnly(input), 4)
  }

  /** The expiry the input handler stores: with two or more digits, `MM/` and up to two more digits. */
  function ExpiryText(input: string): (expiry: string)
    ensures |expiry| <= 5
    ensures |DigitsOnly(input)| < 2 ==> AllDigits(expiry)
    ensures |DigitsOnly(input)| >= 2 ==> |expiry| >= 3 && expiry[2] == '/' && AllDigits(expiry[..2]) && AllDigits(expiry[3..])
  {
    var d := DigitsOnly(input);
    if |d| >= 2 then d[..2] + "/" + Slice(d, 2, 4) else d
  }

  /** `!cardNumber || !expiry || !cvv || !name`: some card detail is empty. */
  predicate CardDetailsMissing(cardNumber: string, expiry: string, cvv: string, name: string) {
    cardNumber == "" || expiry == "" || cvv == "" || name == ""
  }

  /** The card button's `disabled` condition. */
  predicate CardButtonDisabled(isProcessing: bool, cardNumber: string, expiry: string, cvv: string, name: string) {
    isProcessing || cardNumber == "" || expiry == "" || cvv == "" || name == ""
  }

  /** The record of a completed card payment. */
  function CardPaymentRecord(transactionId: string, amount: real, cardNumber: string): CompletedPayment {
    CompletedPayment(transactionId, "Credit Card", amount, "Down Payment", Some(TakeLast(cardNumber, 4)))
  }

  /** The record of a completed one-click payment. */
  function StripeLinkRecord(transactionId: string, amount: real): CompletedPayment {
    CompletedPayment(transactionId, "Stripe Link", amount, "Down Payment", None)
  }

  /**
   * The form's state. The simulated processing delay is collapsed, so a payment sets
   * `isProcessing` and clears it again within one call; transaction ids are passed in.
   */
  class Form {
    const amount: real
    var cardNumber: string
    var expiry: string
    var cvv: string
    var name: string
    var isProcessing: bool
    var useStripeLink: bool

    constructor (amount: real)
      ensures this.amount == amount
      ensures cardNumber == "" && expiry == "" && cvv == "" && name == ""
      ensures !isProcessing && !useStripeLink
    {
      this.amount := amount;
      cardNumber := "";
      expiry := "";
      cvv := "";
      name := "";
      isProcessing := false;
      useStripeLink := false;
    }

    method OnCardNumberChange(input: string)
      modifies this
      ensures cardNumber == SanitizeCard(input)
      ensures expiry == old(expiry) && cvv == old(cvv) && name == old(name)
      ensures isProcessing == old(isProcessing) && useStripeLink == old(useStripeLink)
    {
      cardNumber := Take(DigitsOnly(input), 16);
    }

    /** The expiry handler, which reassigns its local `value` before storing it. */
    method OnExpiryChange(input: string)
      modifies this
      ensures expiry == ExpiryText(input)
      ensures cardNumber == old(cardNumber) && cvv == old(cvv) && name == old(name)
      ensures isProcessing == old(isProcessing) && useStripeLink == old(useStripeLink)
    {
      var value := DigitsOnly(input);
      if |value| >= 2 {
        value := value[..2] + "/" + Slice(value, 2, 4);
      }
      expiry := value;
    }

    method OnCvvChange(input: string)
      modifies this
      ensures cvv == SanitizeCvv(input)
      ensures cardNumber == old(cardNumber) && expiry == old(expiry) && name == old(name)
      ensures isProcessing == old(isProcessing) && useStripeLink == old(useStripeLink)
    {
      cvv := Take(DigitsOnly(input), 4);
    }

    method OnNameChange(input: string)
      modifies this
      ensures name == input
      ensures cardNumber == old(cardNumber) && expiry == old(expiry) && cvv == old(cvv)
      ensures isProcessing == old(isProcessing) && useStripeLink == old(useStripeLink)
    {
      name := input;
    }

    /**
     * `handleCardPayment`: refused, with nothing changed, when a card detail is empty; otherwise
     * the card record for the `amount` prop.
     */
    method HandleCardPayment(transactionId: string) returns (completed: Option<CompletedPayment>)
      modifies this
      ensures completed.None? <==> CardDetailsMissing(cardNumber, expiry, cvv, name)
      ensures completed.Some? ==> completed.value == CardPaymentRecord(transactionId, amount, cardNumber)
      ensures completed.None? ==> isProcessing == old(isProcessing)
      ensures completed.Some? ==> !isProcessing
      ensures cardNumber == old(cardNumber) && expiry == old(expiry) && cvv == old(cvv) && name == old(name)
      ensures useStripeLink == old(useStripeLink)
    {
      if cardNumber == "" || expiry == "" || cvv == "" || name == "" {
        return None;
      }
      isProcessing := true;
      completed := Some(CompletedPayment(transactionId, "Credit Card", amount, "Down Payment", Some(TakeLast(cardNumber, 4))));
      isProcessing := false;
    }

    /** `handleStripeLink`: always completes, with no card digits in the record. */
    method HandleStripeLink(transactionId: string) returns (completed: CompletedPayment)
      modifies this
      ensures completed == StripeLinkRecord(transactionId, amount)
      ensures useStripeLink && !isProcessing
      ensures cardNumber == old(cardNumber) && expiry == old(expiry) && cvv == old(cvv) && name == old(name)
    {
      useStripeLink := true;
      isProcessing := true;
      completed := CompletedPayment(transactionId, "Stripe Link", amount, "Down Payment", None);
      isProcessing := false;
    }
  }

  // ---------------------------------------------------------------- properties

  /** A prefix of a digit string is a digit string. */
  lemma TakeDigits(d: string, n: nat)
    requires AllDigits(d)
    ensures AllDigits(Take(d, n))
  {
    var t := Take(d, n);
    assert forall i :: 0 <= i < |t| ==> t[i] == d[i];
  }

  /**
   * The card number keeps the input's digits, in order, up to 16 of them; all of them when there
   * are no more than 16.
   */
  lemma CardSanitizer(input: string)
    ensures var r := SanitizeCard(input);
      && AllDigits(r) && |r| <= 16
      && r == DigitsOnly(input)[..|r|]
      && (|DigitsOnly(input)| <= 16 <==> r == DigitsOnly(input))
  {
    TakeDigits(DigitsOnly(input), 16);
  }

  /** Sanitising a sanitised card number changes nothing. */
  lemma CardSanitizerIdempotent(input: string)
    ensures SanitizeCard(SanitizeCard(input)) == SanitizeCard(input)
  {
    TakeDigits(DigitsOnly(input), 16);
  }

  /** The CVV keeps the input's digits, in order, up to 4 of them. */
  lemma CvvSanitizer(input: string)
    ensures var r := SanitizeCvv(input);
      && AllDigits(r) && |r| <= 4
      && r == DigitsOnly(input)[..|r|]
      && (|DigitsOnly(input)| <= 4 <==> r == DigitsOnly(input))
    ensures SanitizeCvv(SanitizeCvv(input)) == SanitizeCvv(input)
  {
    TakeDigits(DigitsOnly(input), 4);
  }

  /**
   * The expiry has at most 5 characters. Below two digits it is just the digits; from two digits on
   * it is the first two, a slash, and the next two at most. Its digits are the input's first four.
   */
  lemma ExpiryShape(input: string)
    ensures var d := DigitsOnly(input);
      var r := ExpiryText(input);
      && |r| <= 5
      && (|d| < 2 ==> r == d)
      && (|d| >= 2 ==> |r| >= 3 && r[..2] == d[..2] && r[2] == '/' && r[3..] == Slice(d, 2, 4))
      && DigitsOnly(r) == Take(d, 4)
  {
    var d := DigitsOnly(input);
    if |d| >= 2 {
      ExpiryDigits(d);
    }
  }

  /** The digits of `MM/YY` built from a digit string are its first four digits. */
  lemma ExpiryDigits(d: string)
    requires AllDigits(d) && |d| >= 2
    ensures DigitsOnly(d[..2] + "/" + Slice(d, 2, 4)) == Take(d, 4)
  {
    var a, b := d[..2], Slice(d, 2, 4);
    assert AllDigits(a) && AllDigits(b) by {
      assert forall i :: 0 <= i < |a| ==> a[i] == d[i];
      assert forall i :: 0 <= i < |b| ==> b[i] == d[2 + i];
    }
    DigitsOnlyConcat(a + "/", b);
    DigitsOnlyConcat(a, "/");
    assert DigitsOnly("/") == [];
    assert a + b == Take(d, 4);
  }

  /** Feeding the stored expiry back through the handler gives it unchanged. */
  lemma ExpiryIdempotent(input: string)
    ensures ExpiryText(ExpiryText(input)) == ExpiryText(input)
  {
    var d := DigitsOnly(input);
    ExpiryShape(input);
    if |d| >= 2 {
      var d' := Take(d, 4);
      assert DigitsOnly(ExpiryText(input)) == d';
      assert d'[..2] == d[..2];
      assert Slice(d', 2, 4) == Slice(d, 2, 4);
    } else {
      DigitsOnlyIdempotent(input);
    }
  }

  /**
   * The button is enabled only when the guard lets the payment through, and the guard refuses
   * exactly when a detail is empty.
   */
  lemma ButtonAgreesWithGuard(isProcessing: bool, cardNumber: string, expiry: string, cvv: string, name: string)
    ensures CardButtonDisabled(isProcessing, cardNumber, expiry, cvv, name) <==>
      isProcessing || CardDetailsMissing(cardNumber, expiry, cvv, name)
    ensures !CardButtonDisabled(isProcessing, cardNumber, expiry, cvv, name) ==>
      !CardDetailsMissing(cardNumber, expiry, cvv, name)
  {
  }

  /**
   * The card record carries the last four characters of the card number (all of it if shorter),
   * and, for a sanitised number, they are its last four digits.
   */
  lemma CardRecordFields(transactionId: string, amount: real, input: string)
    ensures var c := SanitizeCard(input);
      var r := CardPaymentRecord(transactionId, amount, c);
      && r.payMethod == "Credit Card" && r.paymentType == "Down Payment" && r.amount == amount
      && r.cardLast4.Some? && AllDigits(r.cardLast4.value)
      && |r.cardLast4.value| == (if |c| < 4 then |c| else 4)
      && c == c[..|c| - |r.cardLast4.value|] + r.cardLast4.value
  {
    CardSanitizer(input);
    LastFour(SanitizeCard(input));
  }

  lemma LastFour(c: string)
    requires AllDigits(c)
    ensures var l := TakeLast(c, 4);
      AllDigits(l) && c == c[..|c| - |l|] + l
  {
    var l := TakeLast(c, 4);
    assert forall i :: 0 <= i < |l| ==> l[i] == c[|c| - |l| + i];
  }
}
