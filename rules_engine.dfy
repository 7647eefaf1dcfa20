/**
 * The Deterministic Constraint Engine: validation of a payment plan (down payment, installment
 * count) against the rule record, and the five-clamp repair ("auto-fix").
 */
module RulesEngine {
  import opened Text

  /** Which input a violation is about. */
  datatype Field = DownPaymentField | InstallmentsField

  datatype Violation = Violation(field: Field, message: string)

  /**
   * The rule record. Validation and repair read the first three fields; the other two are
   * configured on the settings screen but never enforced.
   */
  datatype Rules = Rules(
    minDownPayment: real,
    maxInstallmentMonths: int,
    allowZeroDownPayment: bool,
    maxDiscountPercent: real,
    minMonthlyPayment: real)

  datatype Plan = Plan(downPayment: real, installments: int)

  // ---------------------------------------------------------------- currency text

  /** Round half away from zero (the default rounding of `Intl.NumberFormat`). */
  function RoundHalfExpand(x: real): int {
    if x >= 0.0 then (x + 0.5).Floor else -((-x + 0.5).Floor)
  }

  /** Decimal digits with a comma before every group of three from the right. */
  function GroupThousands(digits: string): (r: string)
    ensures |r| >= |digits|
    decreases |digits|
  {
    if |digits| <= 3 then digits
    else GroupThousands(digits[..|digits| - 3]) + "," + digits[|digits| - 3..]
  }

  function TwoDigits(n: nat): (s: string)
    requires n < 100
    ensures |s| == 2 && AllDigits(s)
  {
    [DigitChar(n / 10), DigitChar(n % 10)]
  }

  /**
   * US-dollar text as `en-US` currency formatting writes it: `$1,234.50`, `-$3.00`. A minus sign
   * leads exactly when the amount rounds to a negative number of cents, and two decimals follow
   * the point.
   */
  function FormatUSD(amount: real): (r: string)
    ensures |r| >= 5 && (r[0] == '-' <==> RoundHalfExpand(amount * 100.0) < 0)
    ensures r[|r| - 3] == '.' && AllDigits(r[|r| - 2..])
  {
    FormatCents(RoundHalfExpand(amount * 100.0))
  }

  /** The currency text of a whole number of cents. */
  function FormatCents(cents: int): (r: string)
    ensures |r| >= 5 && (r[0] == '-' <==> cents < 0)
    ensures r[|r| - 3] == '.' && AllDigits(r[|r| - 2..])
  {
    var r := SignOf(cents) + GroupThousands(NatToString(Magnitude(cents) / 100)) + "." + TwoDigits(Magnitude(cents) % 100);
    assert r[|r| - 3..] == "." + TwoDigits(Magnitude(cents) % 100);
    r
  }

  /** What precedes the digits: `-$` for a negative amount, `$` otherwise. */
  function SignOf(cents: int): string {
    if cents < 0 then "-$" else "$"
  }

  function Magnitude(cents: int): nat {
    if cents < 0 then -cents else cents
  }

  /** The text with its commas taken out. */
  function DropCommas(s: string): string {
    if s == [] then []
    else DropCommas(s[..|s| - 1]) + (if s[|s| - 1] == ',' then [] else [s[|s| - 1]])
  }

  lemma {:induction false} DropCommasConcat(a: string, b: string)
    ensures DropCommas(a + b) == DropCommas(a) + DropCommas(b)
  {
    if b != [] {
      var b' := b[..|b| - 1];
      assert (a + b)[..|a + b| - 1] == a + b';
      assert (a + b)[|a + b| - 1] == b[|b| - 1];
      DropCommasConcat(a, b');
    } else {
      assert a + b == a;
    }
  }

  lemma DropCommasComma(g: string)
    ensures DropCommas(g + ",") == DropCommas(g)
  {
    assert (g + ",")[..|g + ","| - 1] == g;
  }

  lemma {:induction false} DropCommasOfDigits(s: string)
    requires AllDigits(s)
    ensures DropCommas(s) == s
  {
    if s != [] {
      DropCommasOfDigits(s[..|s| - 1]);
    }
  }

  /** Grouping only inserts commas: taking them out gives the digits back. */
  lemma {:induction false} GroupThousandsDropCommas(digits: string)
    requires AllDigits(digits)
    ensures DropCommas(GroupThousands(digits)) == digits
    decreases |digits|
  {
    if |digits| <= 3 {
      DropCommasOfDigits(digits);
    } else {
      var head, tail := digits[..|digits| - 3], digits[|digits| - 3..];
      assert AllDigits(head) && AllDigits(tail);
      var g := GroupThousands(head);
      assert GroupThousands(digits) == g + "," + tail;
      GroupThousandsDropCommas(head);
      DropCommasConcat(g + ",", tail);
      DropCommasComma(g);
      DropCommasOfDigits(tail);
      assert digits == head + tail;
    }
  }

  lemma TwoDigitsValue(n: nat)
    requires n < 100
    ensures ParseDigits(TwoDigits(n)) == n
  {
    var t := TwoDigits(n);
    assert DigitValue(DigitChar(n / 10)) == n / 10;
    assert DigitValue(DigitChar(n % 10)) == n % 10;
    assert t[..1] == [DigitChar(n / 10)];
    assert t[..1][..0] == [];
    assert ParseDigits(t[..1]) == n / 10;
  }

  lemma Pieces(sign: string, whole: string, two: string)
    requires |two| == 2
    ensures var r := sign + whole + "." + two;
      r[..|sign|] == sign && r[|sign|..|r| - 3] == whole && r[|r| - 2..] == two
  {
  }

  /**
   * The currency text reads back to the rounded amount: after the sign and the `$`, the whole
   * dollars with their commas taken out and the two decimals give back the number of cents.
   */
  lemma FormatUSDReadsBack(amount: real)
    ensures var r, cents := FormatUSD(amount), RoundHalfExpand(amount * 100.0);
      var k := |SignOf(cents)|;
      && r[..k] == SignOf(cents)
      && AllDigits(DropCommas(r[k..|r| - 3]))
      && ParseDigits(DropCommas(r[k..|r| - 3])) * 100 + ParseDigits(r[|r| - 2..]) == Magnitude(cents)
  {
    FormatCentsReadsBack(RoundHalfExpand(amount * 100.0));
  }

  lemma FormatCentsReadsBack(cents: int)
    ensures var r, k := FormatCents(cents), |SignOf(cents)|;
      && r[..k] == SignOf(cents)
      && AllDigits(DropCommas(r[k..|r| - 3]))
      && ParseDigits(DropCommas(r[k..|r| - 3])) * 100 + ParseDigits(r[|r| - 2..]) == Magnitude(cents)
  {
    var digits := NatToString(Magnitude(cents) / 100);
    PiecesReadBack(SignOf(cents), digits, Magnitude(cents) % 100);
    DivModHundred(Magnitude(cents), ParseDigits(digits));
  }

  /** The three pieces of the currency text can be cut out again and read. */
  lemma PiecesReadBack(sign: string, digits: string, m: nat)
    requires AllDigits(digits) && m < 100
    ensures var r := sign + GroupThousands(digits) + "." + TwoDigits(m);
      && r[..|sign|] == sign && DropCommas(r[|sign|..|r| - 3]) == digits && ParseDigits(r[|r| - 2..]) == m
  {
    Pieces(sign, GroupThousands(digits), TwoDigits(m));
    GroupThousandsDropCommas(digits);
    TwoDigitsValue(m);
  }

  lemma DivModHundred(m: nat, q: nat)
    requires q == m / 100
    ensures q * 100 + m % 100 == m
  {
  }

  /** A negative amount is written as the positive one with a leading minus sign. */
  lemma FormatUSDNegates(amount: real)
    requires RoundHalfExpand(amount * 100.0) > 0
    ensures FormatUSD(-amount) == "-" + FormatUSD(amount)
  {
    assert -amount * 100.0 == -(amount * 100.0);
    assert RoundHalfExpand(-amount * 100.0) == -RoundHalfExpand(amount * 100.0);
  }

  // ---------------------------------------------------------------- validation

  /** The five checks; validation runs them in the order they are declared here. */
  datatype Check = MinDown | ZeroDown | MaxTerm | Ceiling | MinTerm

  /** Whether check `c` rejects the plan. */
  predicate Fires(c: Check, d: real, i: int, totalCost: real, rules: Rules) {
    match c
    case MinDown => d < rules.minDownPayment
    case ZeroDown => d == 0.0 && !rules.allowZeroDownPayment
    case MaxTerm => i > rules.maxInstallmentMonths
    case Ceiling => d > totalCost
    case MinTerm => i < 1
  }

  function FieldOf(c: Check): Field {
    match c
    case MaxTerm => InstallmentsField
    case MinTerm => InstallmentsField
    case _ => DownPaymentField
  }

  function MessageOf(c: Check, rules: Rules): string {
    match c
    case MinDown => "Minimum down payment is " + FormatUSD(rules.minDownPayment)
    case ZeroDown => "Down payment cannot be $0"
    case MaxTerm => "Maximum installment duration is " + IntToString(rules.maxInstallmentMonths) + " months"
    case Ceiling => "Down payment cannot exceed total cost"
    case MinTerm => "Installments must be at least 1 month"
  }

  function ViolationOf(c: Check, rules: Rules): Violation {
    Violation(FieldOf(c), MessageOf(c, rules))
  }

  /** The violation of `c` if it fires, else nothing. */
  function Outcome(c: Check, d: real, i: int, totalCost: real, rules: Rules): seq<Violation> {
    if Fires(c, d, i, totalCost, rules) then [ViolationOf(c, rules)] else []
  }

  /** What validation reports: one violation per firing check, in check order. */
  function Violations(d: real, i: int, totalCost: real, rules: Rules): seq<Violation> {
    Outcome(MinDown, d, i, totalCost, rules) + Outcome(ZeroDown, d, i, totalCost, rules)
    + Outcome(MaxTerm, d, i, totalCost, rules) + Outcome(Ceiling, d, i, totalCost, rules)
    + Outcome(MinTerm, d, i, totalCost, rules)
  }

  /** The plan passes every check. */
  predicate Passes(d: real, i: int, totalCost: real, rules: Rules) {
    && d >= rules.minDownPayment
    && !(d == 0.0 && !rules.allowZeroDownPayment)
    && i <= rules.maxInstallmentMonths
    && d <= totalCost
    && i >= 1
  }

  /** Some violation in `vs` is tagged `f` (`errors.find(e => e.field === f)`). */
  predicate HasField(vs: seq<Violation>, f: Field) {
    exists k :: 0 <= k < |vs| && vs[k].field == f
  }

  /**
   * `validatePaymentPlan`: the checks run one after another, each pushing at most one violation.
   */
  method ValidatePaymentPlan(downPayment: real, installments: int, totalCost: real, rules: Rules)
    returns (errors: seq<Violation>)
    ensures errors == Violations(downPayment, installments, totalCost, rules)
  {
    ghost var d, i, t := downPayment, installments, totalCost;
    errors := [];
    if downPayment < rules.minDownPayment {
      errors := errors + [ViolationOf(MinDown, rules)];
    }
    ghost var sofar := errors;
    assert sofar == Outcome(MinDown, d, i, t, rules);
    if downPayment == 0.0 && !rules.allowZeroDownPayment {
      errors := errors + [ViolationOf(ZeroDown, rules)];
    }
    assert errors == sofar + Outcome(ZeroDown, d, i, t, rules);
    sofar := errors;
    if installments > rules.maxInstallmentMonths {
      errors := errors + [ViolationOf(MaxTerm, rules)];
    }
    assert errors == sofar + Outcome(MaxTerm, d, i, t, rules);
    sofar := errors;
    if downPayment > totalCost {
      errors := errors + [ViolationOf(Ceiling, rules)];
    }
    assert errors == sofar + Outcome(Ceiling, d, i, t, rules);
    sofar := errors;
    if installments < 1 {
      errors := errors + [ViolationOf(MinTerm, rules)];
    }
    assert errors == sofar + Outcome(MinTerm, d, i, t, rules);
  }

  /**
   * Validation reports at most five violations, and a violation is reported exactly when it
   * belongs to a check that fires.
   */
  lemma ViolationsExactlyFiring(d: real, i: int, t: real, rules: Rules)
    ensures |Violations(d, i, t, rules)| <= 5
    ensures forall c :: Fires(c, d, i, t, rules) <==> ViolationOf(c, rules) in Violations(d, i, t, rules)
  {
    forall c ensures Fires(c, d, i, t, rules) <==> ViolationOf(c, rules) in Violations(d, i, t, rules) {
      FiringIff(c, d, i, t, rules);
    }
  }

  lemma FiringIff(c: Check, d: real, i: int, t: real, rules: Rules)
    ensures Fires(c, d, i, t, rules) <==> ViolationOf(c, rules) in Violations(d, i, t, rules)
  {
    var v := ViolationOf(c, rules);
    assert v in Violations(d, i, t, rules) <==>
      || v in Outcome(MinDown, d, i, t, rules) || v in Outcome(ZeroDown, d, i, t, rules)
      || v in Outcome(MaxTerm, d, i, t, rules) || v in Outcome(Ceiling, d, i, t, rules)
      || v in Outcome(MinTerm, d, i, t, rules);
    OutcomeOf(c, MinDown, d, i, t, rules);
    OutcomeOf(c, ZeroDown, d, i, t, rules);
    OutcomeOf(c, MaxTerm, d, i, t, rules);
    OutcomeOf(c, Ceiling, d, i, t, rules);
    OutcomeOf(c, MinTerm, d, i, t, rules);
  }

  /** A check's violation appears only in its own outcome, and there exactly when it fires. */
  lemma OutcomeOf(c: Check, c': Check, d: real, i: int, t: real, rules: Rules)
    ensures ViolationOf(c, rules) in Outcome(c', d, i, t, rules) <==> c == c' && Fires(c, d, i, t, rules)
  {
    if ViolationOf(c, rules) in Outcome(c', d, i, t, rules) {
      MessagesDistinct(c, c', rules);
    }
  }

  /** The first character and the character at index 20 of each check's message. */
  function Signature(c: Check): (char, char) {
    match c
    case MinDown => ('M', ' ')
    case ZeroDown => ('D', 'b')
    case MaxTerm => ('M', 'd')
    case Ceiling => ('D', 'e')
    case MinTerm => ('I', ' ')
  }

  lemma MessageSignature(c: Check, rules: Rules)
    ensures |MessageOf(c, rules)| > 20
    ensures (MessageOf(c, rules)[0], MessageOf(c, rules)[20]) == Signature(c)
  {
  }

  /** No two checks produce the same violation. */
  lemma MessagesDistinct(c: Check, c': Check, rules: Rules)
    requires ViolationOf(c, rules) == ViolationOf(c', rules)
    ensures c == c'
  {
    MessageSignature(c, rules);
    MessageSignature(c', rules);
  }

  /** The result is empty exactly when all five conditions hold. */
  lemma PassesIffNoViolations(d: real, i: int, t: real, rules: Rules)
    ensures Violations(d, i, t, rules) == [] <==> Passes(d, i, t, rules)
  {
  }

  /**
   * A down-payment-tagged violation is present exactly when check 1, 2 or 4 fires; an
   * installments-tagged one exactly when check 3 or 5 fires.
   */
  lemma FieldTags(d: real, i: int, t: real, rules: Rules)
    ensures HasField(Violations(d, i, t, rules), DownPaymentField) <==>
              d < rules.minDownPayment || (d == 0.0 && !rules.allowZeroDownPayment) || d > t
    ensures HasField(Violations(d, i, t, rules), InstallmentsField) <==>
              i > rules.maxInstallmentMonths || i < 1
  {
    CheckFields(d, i, t, rules, DownPaymentField);
    CheckFields(d, i, t, rules, InstallmentsField);
  }

  /** A field tag is reported exactly when some firing check carries it. */
  lemma CheckFields(d: real, i: int, t: real, rules: Rules, f: Field)
    ensures HasField(Violations(d, i, t, rules), f) <==>
              || (Fires(MinDown, d, i, t, rules) && FieldOf(MinDown) == f)
              || (Fires(ZeroDown, d, i, t, rules) && FieldOf(ZeroDown) == f)
              || (Fires(MaxTerm, d, i, t, rules) && FieldOf(MaxTerm) == f)
              || (Fires(Ceiling, d, i, t, rules) && FieldOf(Ceiling) == f)
              || (Fires(MinTerm, d, i, t, rules) && FieldOf(MinTerm) == f)
  {
    var o1, o2, o3, o4, o5 := Outcome(MinDown, d, i, t, rules), Outcome(ZeroDown, d, i, t, rules),
      Outcome(MaxTerm, d, i, t, rules), Outcome(Ceiling, d, i, t, rules), Outcome(MinTerm, d, i, t, rules);
    HasFieldConcat(o1 + o2 + o3 + o4, o5, f);
    HasFieldConcat(o1 + o2 + o3, o4, f);
    HasFieldConcat(o1 + o2, o3, f);
    HasFieldConcat(o1, o2, f);
    HasFieldOutcome(MinDown, d, i, t, rules, f);
    HasFieldOutcome(ZeroDown, d, i, t, rules, f);
    HasFieldOutcome(MaxTerm, d, i, t, rules, f);
    HasFieldOutcome(Ceiling, d, i, t, rules, f);
    HasFieldOutcome(MinTerm, d, i, t, rules, f);
  }

  lemma HasFieldConcat(a: seq<Violation>, b: seq<Violation>, f: Field)
    ensures HasField(a + b, f) <==> HasField(a, f) || HasField(b, f)
  {
    if HasField(a + b, f) {
      var k :| 0 <= k < |a + b| && (a + b)[k].field == f;
      if k < |a| {
        assert a[k] == (a + b)[k];
      } else {
        assert b[k - |a|] == (a + b)[k];
      }
    }
    if HasField(a, f) {
      var k :| 0 <= k < |a| && a[k].field == f;
      assert (a + b)[k] == a[k];
    }
    if HasField(b, f) {
      var k :| 0 <= k < |b| && b[k].field == f;
      assert (a + b)[|a| + k] == b[k];
    }
  }

  lemma HasFieldOutcome(c: Check, d: real, i: int, t: real, rules: Rules, f: Field)
    ensures HasField(Outcome(c, d, i, t, rules), f) <==> Fires(c, d, i, t, rules) && FieldOf(c) == f
  {
    if Fires(c, d, i, t, rules) {
      assert Outcome(c, d, i, t, rules)[0].field == FieldOf(c);
    }
  }

  /** A zero down payment is always reported when zero down is disallowed, even with a zero minimum. */
  lemma ZeroDownReported(i: int, t: real, rules: Rules)
    requires !rules.allowZeroDownPayment
    ensures Violation(DownPaymentField, "Down payment cannot be $0") in Violations(0.0, i, t, rules)
  {
    FiringIff(ZeroDown, 0.0, i, t, rules);
  }

  /** With a positive minimum, a zero down payment draws both down-payment violations first, minimum first. */
  lemma ZeroDownOrder(i: int, t: real, rules: Rules)
    requires !rules.allowZeroDownPayment && rules.minDownPayment > 0.0
    ensures Violations(0.0, i, t, rules)[..2] == [ViolationOf(MinDown, rules), ViolationOf(ZeroDown, rules)]
  {
    var first := [ViolationOf(MinDown, rules), ViolationOf(ZeroDown, rules)];
    var rest := Outcome(MaxTerm, 0.0, i, t, rules) + Outcome(Ceiling, 0.0, i, t, rules) + Outcome(MinTerm, 0.0, i, t, rules);
    assert Outcome(MinDown, 0.0, i, t, rules) + Outcome(ZeroDown, 0.0, i, t, rules) == first;
    assert Violations(0.0, i, t, rules) == first + rest;
    assert (first + rest)[..2] == first;
  }

  /** The bounds are strict: equality with the total or the maximum passes, 1 installment passes, 0 never does. */
  lemma StrictBoundaries(d: real, i: int, t: real, rules: Rules)
    ensures ViolationOf(Ceiling, rules) !in Violations(t, i, t, rules)
    ensures ViolationOf(MaxTerm, rules) !in Violations(d, rules.maxInstallmentMonths, t, rules)
    ensures ViolationOf(MinTerm, rules) !in Violations(d, 1, t, rules)
    ensures ViolationOf(MinTerm, rules) in Violations(d, 0, t, rules)
  {
    FiringIff(Ceiling, t, i, t, rules);
    FiringIff(MaxTerm, d, rules.maxInstallmentMonths, t, rules);
    FiringIff(MinTerm, d, 1, t, rules);
    FiringIff(MinTerm, d, 0, t, rules);
  }

  // ---------------------------------------------------------------- repair

  /** Clamps 1-3 on the down payment, in order, each overwriting the last. */
  function FixDownPayment(d: real, totalCost: real, rules: Rules): real {
    var raised := if d < rules.minDownPayment then rules.minDownPayment else d;
    var nonZero := if raised == 0.0 && !rules.allowZeroDownPayment then rules.minDownPayment else raised;
    if nonZero > totalCost then totalCost else nonZero
  }

  /** Clamps 4-5 on the installment count. */
  function FixInstallments(i: int, rules: Rules): int {
    var capped := if i > rules.maxInstallmentMonths then rules.maxInstallmentMonths else i;
    if capped < 1 then 1 else capped
  }

  function AutoFix(d: real, i: int, totalCost: real, rules: Rules): Plan {
    Plan(FixDownPayment(d, totalCost, rules), FixInstallments(i, rules))
  }

  /** `autoFixPaymentPlan`: five sequential clamps on two local variables. */
  method AutoFixPaymentPlan(downPayment: real, installments: int, totalCost: real, rules: Rules)
    returns (fixed: Plan)
    ensures fixed == AutoFix(downPayment, installments, totalCost, rules)
    ensures fixed.downPayment <= totalCost
    ensures rules.maxInstallmentMonths >= 1 ==> 1 <= fixed.installments <= rules.maxInstallmentMonths
    ensures rules.maxInstallmentMonths < 1 ==> fixed.installments == 1
  {
    var fixedDownPayment := downPayment;
    var fixedInstallments := installments;
    if fixedDownPayment < rules.minDownPayment {
      fixedDownPayment := rules.minDownPayment;
    }
    if fixedDownPayment == 0.0 && !rules.allowZeroDownPayment {
      fixedDownPayment := rules.minDownPayment;
    }
    if fixedDownPayment > totalCost {
      fixedDownPayment := totalCost;
    }
    if fixedInstallments > rules.maxInstallmentMonths {
      fixedInstallments := rules.maxInstallmentMonths;
    }
    if fixedInstallments < 1 {
      fixedInstallments := 1;
    }
    fixed := Plan(fixedDownPayment, fixedInstallments);
  }

  /** The repaired installment count lies in [1, max] when max >= 1, and is exactly 1 otherwise. */
  lemma InstallmentClamp(i: int, rules: Rules)
    ensures rules.maxInstallmentMonths >= 1 ==> 1 <= FixInstallments(i, rules) <= rules.maxInstallmentMonths
    ensures rules.maxInstallmentMonths < 1 ==> FixInstallments(i, rules) == 1
    ensures 1 <= i <= rules.maxInstallmentMonths ==> FixInstallments(i, rules) == i
  {
  }

  /**
   * The repaired down payment never exceeds the total; it reaches the minimum whenever the
   * minimum fits under the total, and equals the total when it does not (the last clamp wins).
   */
  lemma DownPaymentClamp(d: real, t: real, rules: Rules)
    ensures FixDownPayment(d, t, rules) <= t
    ensures rules.minDownPayment <= t ==> FixDownPayment(d, t, rules) >= rules.minDownPayment
    ensures rules.minDownPayment > t ==> FixDownPayment(d, t, rules) == t
  {
  }

  /** A plan that already passes validation comes back unchanged. */
  lemma AutoFixKeepsPassingPlan(d: real, i: int, t: real, rules: Rules)
    requires Violations(d, i, t, rules) == []
    ensures AutoFix(d, i, t, rules) == Plan(d, i)
  {
    PassesIffNoViolations(d, i, t, rules);
  }

  /**
   * Repair is idempotent except in one configuration: a negative minimum with zero down
   * disallowed and a zero total, where the ceiling clamp can produce the 0 that the zero rule
   * then moves to the negative minimum on the second pass.
   */
  lemma AutoFixIdempotent(d: real, i: int, t: real, rules: Rules)
    requires !(rules.minDownPayment < 0.0 && !rules.allowZeroDownPayment && t == 0.0)
    ensures var p := AutoFix(d, i, t, rules); AutoFix(p.downPayment, p.installments, t, rules) == p
  {
  }

  /** The configuration AutoFixIdempotent excludes really does break idempotence. */
  lemma AutoFixNotIdempotentWithNegativeMinimum()
    ensures var rules := Rules(-5.0, 24, false, 10.0, 100.0);
            var p := AutoFix(10.0, 12, 0.0, rules);
            p == Plan(0.0, 12) && AutoFix(p.downPayment, p.installments, 0.0, rules) == Plan(-5.0, 12)
  {
  }

  /**
   * Revalidating a repaired plan finds nothing when the maximum term is at least 1, the
   * minimum fits under the total, and the minimum is positive or zero down is allowed.
   */
  lemma AutoFixPassesWhen(d: real, i: int, t: real, rules: Rules)
    requires rules.maxInstallmentMonths >= 1
    requires rules.minDownPayment <= t
    requires rules.minDownPayment > 0.0 || rules.allowZeroDownPayment
    ensures var p := AutoFix(d, i, t, rules); Violations(p.downPayment, p.installments, t, rules) == []
  {
    var p := AutoFix(d, i, t, rules);
    PassesIffNoViolations(p.downPayment, p.installments, t, rules);
  }

  /** Without the first two conditions no repair can pass. */
  lemma AutoFixFailsWithout(d: real, i: int, t: real, rules: Rules)
    requires rules.maxInstallmentMonths < 1 || rules.minDownPayment > t
    ensures var p := AutoFix(d, i, t, rules); Violations(p.downPayment, p.installments, t, rules) != []
  {
    var p := AutoFix(d, i, t, rules);
    PassesIffNoViolations(p.downPayment, p.installments, t, rules);
  }

  /**
   * The repair gap: with a zero minimum and zero down disallowed, a non-positive down payment is
   * repaired to 0, and revalidation still reports that the down payment cannot be $0.
   */
  lemma RepairGap(d: real, i: int, t: real, rules: Rules)
    requires rules.minDownPayment == 0.0 && !rules.allowZeroDownPayment && d <= 0.0 && t >= 0.0
    ensures AutoFix(d, i, t, rules).downPayment == 0.0
    ensures var p := AutoFix(d, i, t, rules);
            ViolationOf(ZeroDown, rules) in Violations(p.downPayment, p.installments, t, rules)
  {
    var p := AutoFix(d, i, t, rules);
    FiringIff(ZeroDown, p.downPayment, p.installments, t, rules);
  }

  // ---------------------------------------------------------------- scenarios

  lemma FormatUSDThousand()
    ensures FormatUSD(1000.0) == "$1,000.00"
  {
    assert RoundHalfExpand(1000.0 * 100.0) == 100000;
    ThousandDigits();
    ThousandGrouped();
    assert TwoDigits(0) == "00";
  }

  lemma ThousandDigits()
    ensures NatToString(1000) == "1000"
  {
    assert NatToString(1) == "1";
    assert NatToString(10) == "10";
    assert NatToString(100) == "100";
  }

  lemma ThousandGrouped()
    ensures GroupThousands("1000") == "1,000"
  {
    assert "1000"[..1] == "1" && "1000"[1..] == "000";
  }

  /** The clinic's default rules as a worked example: minimum 1000, at most 24 months, zero down disallowed. */
  const ExampleRules := Rules(1000.0, 24, false, 10.0, 100.0)

  lemma ScenarioBelowMinimum()
    ensures Violations(500.0, 12, 5000.0, ExampleRules) == [Violation(DownPaymentField, "Minimum down payment is $1,000.00")]
    ensures AutoFix(500.0, 12, 5000.0, ExampleRules) == Plan(1000.0, 12)
  {
    FormatUSDThousand();
    assert MessageOf(MinDown, ExampleRules) == "Minimum down payment is $1,000.00";
    assert Violations(500.0, 12, 5000.0, ExampleRules) == [ViolationOf(MinDown, ExampleRules)];
  }

  lemma ScenarioOverMaxTerm()
    ensures Violations(1000.0, 30, 5000.0, ExampleRules) == [Violation(InstallmentsField, "Maximum installment duration is 24 months")]
    ensures AutoFix(1000.0, 30, 5000.0, ExampleRules) == Plan(1000.0, 24)
    ensures Violations(1000.0, 24, 5000.0, ExampleRules) == []
  {
    assert IntToString(24) == "24" by {
      assert NatToString(2) == "2";
    }
    assert MessageOf(MaxTerm, ExampleRules) == "Maximum installment duration is 24 months";
    assert Violations(1000.0, 30, 5000.0, ExampleRules) == [ViolationOf(MaxTerm, ExampleRules)];
  }

  lemma ScenarioOverTotal()
    ensures Violations(6000.0, 12, 5000.0, ExampleRules) == [Violation(DownPaymentField, "Down payment cannot exceed total cost")]
    ensures AutoFix(6000.0, 12, 5000.0, ExampleRules) == Plan(5000.0, 12)
  {
  }
}
