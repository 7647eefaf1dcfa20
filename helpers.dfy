/** The interest-free monthly-payment formula and the mock payment-processor transaction id. */
module Helpers {
  import opened Text

  /**
   * `calculateMonthlyPayment`: the balance after the down payment, spread evenly over the
   * installments; 0 when there are no installments.
   */
  function MonthlyPayment(totalCost: real, downPayment: real, installments: int): (monthly: real)
    ensures installments <= 0 ==> monthly == 0.0
    ensures installments > 0 ==> downPayment + monthly * installments as real == totalCost
  {
    if installments <= 0 then 0.0 else (totalCost - downPayment) / installments as real
  }

  /** A down payment within the total never makes the monthly payment negative. */
  lemma MonthlyPaymentNonNegative(totalCost: real, downPayment: real, installments: int)
    requires downPayment <= totalCost && installments > 0
    ensures MonthlyPayment(totalCost, downPayment, installments) >= 0.0
  {
    var m := MonthlyPayment(totalCost, downPayment, installments);
    NonNegativeFactor(m, installments as real);
  }

  /** Raising the down payment does not raise the monthly payment. */
  lemma MonthlyPaymentMonotone(totalCost: real, d1: real, d2: real, installments: int)
    requires d1 <= d2 && installments > 0
    ensures MonthlyPayment(totalCost, d2, installments) <= MonthlyPayment(totalCost, d1, installments)
  {
    var m1, m2 := MonthlyPayment(totalCost, d1, installments), MonthlyPayment(totalCost, d2, installments);
    var n := installments as real;
    assert (m1 - m2) * n == d2 - d1;
    NonNegativeFactor(m1 - m2, n);
  }

  lemma NonNegativeFactor(x: real, n: real)
    requires n > 0.0 && x * n >= 0.0
    ensures x >= 0.0
  {
    assert x == (x * n) / n;
  }

  /** `Math.floor(random * 100000)` for a value of `Math.random()`. */
  function RandomTxnNumber(random: real): (r: nat)
    requires 0.0 <= random < 1.0
    ensures r < 100000
  {
    (random * 100000.0).Floor
  }

  /** `generateTransactionId`, with the value of `Math.random()` passed in. */
  function TransactionId(random: real): string
    requires 0.0 <= random < 1.0
  {
    "STRIPE_TXN_" + PadStart(NatToString(RandomTxnNumber(random)), 5, '0')
  }

  /**
   * The id is "STRIPE_TXN_" followed by five digits, 16 characters in all, and the digits spell
   * out the random number with leading zeros.
   */
  lemma TransactionIdFormat(random: real)
    requires 0.0 <= random < 1.0
    ensures var id := TransactionId(random);
      && |id| == 16
      && id[..11] == "STRIPE_TXN_"
      && AllDigits(id[11..])
      && ParseDigits(id[11..]) == RandomTxnNumber(random)
  {
    var r := RandomTxnNumber(random);
    var digits := NatToString(r);
    NatToStringLength(r, 5);
    var padded := PadStart(digits, 5, '0');
    assert padded == Repeat('0', 5 - |digits|) + digits;
    LeadingZeros(5 - |digits|, digits);
    var id := TransactionId(random);
    assert id[11..] == padded;
  }
}
