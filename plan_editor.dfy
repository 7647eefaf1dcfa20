/**
 * The payment-plan editor: two local input fields that are checked against the rules on every
 * keystroke, committed to the store only when the rules allow (or when the value is 0), and a
 * one-click repair.
 */
module PaymentPlanEditor {
  import opened Wrappers
  import opened Entities
  import opened RulesEngine
  import opened AppContext
  import Helpers

  /** The patient's out-of-pocket cost: the total less the insurance coverage. */
  function PatientCost(c: Consultation): real {
    c.totalCost - c.insuranceCoverage
  }

  /** A down-payment keystroke is blocked: a down-payment-tagged violation and a non-zero value. */
  predicate DownPaymentBlocked(d: real, i: int, cost: real, rules: Rules) {
    HasField(Violations(d, i, cost, rules), DownPaymentField) && d != 0.0
  }

  /** An installments keystroke is blocked: an installments-tagged violation and a positive value. */
  predicate InstallmentsBlocked(d: real, i: int, cost: real, rules: Rules) {
    HasField(Violations(d, i, cost, rules), InstallmentsField) && i > 0
  }

  /** `parseInt(value) || 0` for an already-parsed value (None stands for NaN). */
  function OrZero(parsed: Option<int>): int {
    if parsed.Some? && parsed.value != 0 then parsed.value else 0
  }

  function DownPaymentPatch(d: real): ConsultationPatch {
    ConsultationPatch(None, None, None, Some(d), None, None)
  }

  function InstallmentsPatch(i: int): ConsultationPatch {
    ConsultationPatch(None, None, None, None, Some(i), None)
  }

  function PlanPatch(p: Plan): ConsultationPatch {
    ConsultationPatch(None, None, None, Some(p.downPayment), Some(p.installments), None)
  }

  /** A patch of the plan fields leaves the rules and the patient's cost as they were. */
  lemma PlanPatchKeepsCost(s: AppState, p: ConsultationPatch)
    requires p.totalCost.None? && p.insuranceCoverage.None?
    ensures var r := Reduce(s, UpdateConsultation(p));
      r.rules == s.rules && PatientCost(r.consultation) == PatientCost(s.consultation)
  {
    UpdateConsultationMerges(s, p);
  }

  class Editor {
    const store: Store
    var localDownPayment: real
    var localInstallments: int
    var errors: seq<Violation>

    constructor (store: Store)
      ensures this.store == store && errors == []
      ensures localDownPayment == store.state.consultation.downPayment
      ensures localInstallments == store.state.consultation.installments
    {
      this.store := store;
      localDownPayment := store.state.consultation.downPayment;
      localInstallments := store.state.consultation.installments;
      errors := [];
    }

    /** The out-of-pocket cost of the store's consultation. */
    function Cost(): real
      reads this, store
    {
      PatientCost(store.state.consultation)
    }

    /** The monthly figure shown under the inputs. */
    function MonthlyPayment(): real
      reads this, store
    {
      Helpers.MonthlyPayment(Cost(), localDownPayment, localInstallments)
    }

    /** `validate`: shows the violations of the given pair and reports them to the parent. */
    method Validate(d: real, i: int) returns (reported: seq<Violation>)
      modifies this
      ensures reported == Violations(d, i, old(Cost()), store.state.rules)
      ensures errors == reported
      ensures localDownPayment == old(localDownPayment) && localInstallments == old(localInstallments)
    {
      reported := ValidatePaymentPlan(d, i, Cost(), store.state.rules);
      errors := reported;
    }

    /**
     * `handleDownPaymentChange`. The result is what the parent's `onValidationChange` receives
     * and whether the value reached the store.
     */
    method HandleDownPaymentChange(parsed: Option<real>) returns (reported: seq<Violation>, committed: bool)
      modifies this, store
      ensures var d := OrNumber(parsed, 0.0);
        && localDownPayment == d && localInstallments == old(localInstallments)
        && reported == Violations(d, old(localInstallments), old(Cost()), old(store.state.rules))
        && errors == reported
        && committed == !DownPaymentBlocked(d, old(localInstallments), old(Cost()), old(store.state.rules))
        && (committed ==> store.state == Reduce(old(store.state), UpdateConsultation(DownPaymentPatch(d))))
        && (!committed ==> store.state == old(store.state))
    {
      var numValue := OrNumber(parsed, 0.0);
      var validationErrors := ValidatePaymentPlan(numValue, localInstallments, Cost(), store.state.rules);
      var downPaymentError := HasField(validationErrors, DownPaymentField);
      if downPaymentError && numValue != 0.0 {
        localDownPayment := numValue;
        errors := validationErrors;
        reported := validationErrors;
        committed := false;
        return;
      }
      localDownPayment := numValue;
      PlanPatchKeepsCost(store.state, DownPaymentPatch(numValue));
      store.Dispatch(UpdateConsultation(DownPaymentPatch(numValue)));
      reported := Validate(numValue, localInstallments);
      committed := true;
    }

    /** `handleInstallmentsChange`, the same shape on the other field. */
    method HandleInstallmentsChange(parsed: Option<int>) returns (reported: seq<Violation>, committed: bool)
      modifies this, store
      ensures var i := OrZero(parsed);
        && localInstallments == i && localDownPayment == old(localDownPayment)
        && reported == Violations(old(localDownPayment), i, old(Cost()), old(store.state.rules))
        && errors == reported
        && committed == !InstallmentsBlocked(old(localDownPayment), i, old(Cost()), old(store.state.rules))
        && (committed ==> store.state == Reduce(old(store.state), UpdateConsultation(InstallmentsPatch(i))))
        && (!committed ==> store.state == old(store.state))
    {
      var numValue := OrZero(parsed);
      var validationErrors := ValidatePaymentPlan(localDownPayment, numValue, Cost(), store.state.rules);
      var installmentsError := HasField(validationErrors, InstallmentsField);
      if installmentsError && numValue > 0 {
        localInstallments := numValue;
        errors := validationErrors;
        reported := validationErrors;
        committed := false;
        return;
      }
      localInstallments := numValue;
      PlanPatchKeepsCost(store.state, InstallmentsPatch(numValue));
      store.Dispatch(UpdateConsultation(InstallmentsPatch(numValue)));
      reported := Validate(localDownPayment, numValue);
      committed := true;
    }

    /** `handleFixWithAI`: repair the local pair, commit both fields, revalidate. */
    method HandleFixWithAI() returns (reported: seq<Violation>)
      modifies this, store
      ensures var fixed := AutoFix(old(localDownPayment), old(localInstallments), old(Cost()), old(store.state.rules));
        && localDownPayment == fixed.downPayment && localInstallments == fixed.installments
        && store.state == Reduce(old(store.state), UpdateConsultation(PlanPatch(fixed)))
        && reported == Violations(fixed.downPayment, fixed.installments, old(Cost()), old(store.state.rules))
        && errors == reported
    {
      var fixed := AutoFixPaymentPlan(localDownPayment, localInstallments, Cost(), store.state.rules);
      localDownPayment := fixed.downPayment;
      localInstallments := fixed.installments;
      PlanPatchKeepsCost(store.state, PlanPatch(fixed));
      store.Dispatch(UpdateConsultation(PlanPatch(fixed)));
      reported := Validate(fixed.downPayment, fixed.installments);
    }

    /** The re-sync effect: whenever the consultation changes, the local fields follow it. */
    method SyncFromConsultation()
      modifies this
      ensures localDownPayment == store.state.consultation.downPayment
      ensures localInstallments == store.state.consultation.installments
      ensures errors == old(errors)
    {
      localDownPayment := store.state.consultation.downPayment;
      localInstallments := store.state.consultation.installments;
    }
  }

  // ---------------------------------------------------------------- properties

  /** A down-payment keystroke is blocked exactly when it is non-zero and below the minimum or above the cost. */
  lemma DownPaymentBlockedIff(d: real, i: int, cost: real, rules: Rules)
    ensures DownPaymentBlocked(d, i, cost, rules) <==> d != 0.0 && (d < rules.minDownPayment || d > cost)
  {
    FieldTags(d, i, cost, rules);
  }

  /** An installments keystroke is blocked exactly when it is positive and above the maximum term. */
  lemma InstallmentsBlockedIff(d: real, i: int, cost: real, rules: Rules)
    ensures InstallmentsBlocked(d, i, cost, rules) <==> i > 0 && i > rules.maxInstallmentMonths
  {
    FieldTags(d, i, cost, rules);
  }

  /**
   * Zero slips through: 0, and unparsable input coerced to 0, is never blocked, even where the
   * rules reject a zero down payment.
   */
  lemma ZeroSlipsThrough(parsed: Option<real>, i: int, cost: real, rules: Rules)
    requires parsed == None || parsed == Some(0.0)
    ensures OrNumber(parsed, 0.0) == 0.0
    ensures !DownPaymentBlocked(OrNumber(parsed, 0.0), i, cost, rules)
    ensures !rules.allowZeroDownPayment ==> ViolationOf(ZeroDown, rules) in Violations(0.0, i, cost, rules)
  {
    if !rules.allowZeroDownPayment {
      ZeroDownReported(i, cost, rules);
    }
    DownPaymentBlockedIff(0.0, i, cost, rules);
  }

  /** Installment values of 0 or less are always committed. */
  lemma NonPositiveInstallmentsCommitted(d: real, i: int, cost: real, rules: Rules)
    requires i <= 0
    ensures !InstallmentsBlocked(d, i, cost, rules)
    ensures ViolationOf(MinTerm, rules) in Violations(d, i, cost, rules)
  {
    FiringIff(MinTerm, d, i, cost, rules);
  }

  /** Blocking is per field: violations of the other field never block a change. */
  lemma BlockingIsPerField(d: real, d': real, i: int, i': int, cost: real, rules: Rules)
    ensures DownPaymentBlocked(d, i, cost, rules) == DownPaymentBlocked(d, i', cost, rules)
    ensures InstallmentsBlocked(d, i, cost, rules) == InstallmentsBlocked(d', i, cost, rules)
  {
    DownPaymentBlockedIff(d, i, cost, rules);
    DownPaymentBlockedIff(d, i', cost, rules);
    InstallmentsBlockedIff(d, i, cost, rules);
    InstallmentsBlockedIff(d', i, cost, rules);
  }

  /**
   * A committed down-payment change shows the violations of the pair the store then holds, against
   * the patient cost, provided the local installment count still agrees with the store's.
   */
  lemma CommittedErrorsMatchStore(s: AppState, d: real, localInstallments: int)
    requires localInstallments == s.consultation.installments
    ensures var r := Reduce(s, UpdateConsultation(DownPaymentPatch(d)));
      && r.consultation.downPayment == d
      && r.consultation.installments == s.consultation.installments
      && PatientCost(r.consultation) == PatientCost(s.consultation)
      && r.rules == s.rules
      && Violations(d, localInstallments, PatientCost(s.consultation), s.rules)
         == Violations(r.consultation.downPayment, r.consultation.installments, PatientCost(r.consultation), r.rules)
  {
    UpdateConsultationMerges(s, DownPaymentPatch(d));
  }

  /**
   * The down-payment check as evidently intended: against the installment count the store holds,
   * so that the errors shown after a commit are those of the stored plan whatever the field shows.
   */
  function ResyncedDownPaymentErrors(s: AppState, d: real): (r: seq<Violation>)
    ensures var n := Reduce(s, UpdateConsultation(DownPaymentPatch(d)));
      r == Violations(n.consultation.downPayment, n.consultation.installments, PatientCost(n.consultation), n.rules)
  {
    CommittedErrorsMatchStore(s, d, s.consultation.installments);
    Violations(d, s.consultation.installments, PatientCost(s.consultation), s.rules)
  }

  /**
   * The two counts can disagree. With a 500 minimum and a 24-month maximum on a cost of 5,000, a
   * keystroke of 30 months is blocked, so the store keeps 12 while the field shows 30. A committed
   * down payment of 2,000 is then checked against 30 months and shows a violation, although the
   * stored plan of 2,000 over 12 months passes. The re-sync effect resets the field to 12 but does
   * not recompute the errors.
   */
  lemma StaleInstallmentsInErrors()
    ensures var rules := Rules(500.0, 24, false, 10.0, 100.0);
      && InstallmentsBlocked(1000.0, 30, 5000.0, rules)
      && !DownPaymentBlocked(2000.0, 30, 5000.0, rules)
      && Violations(2000.0, 30, 5000.0, rules) != []
      && Violations(2000.0, 12, 5000.0, rules) == []
  {
    var rules := Rules(500.0, 24, false, 10.0, 100.0);
    InstallmentsBlockedIff(1000.0, 30, 5000.0, rules);
    DownPaymentBlockedIff(2000.0, 30, 5000.0, rules);
    PassesIffNoViolations(2000.0, 30, 5000.0, rules);
    PassesIffNoViolations(2000.0, 12, 5000.0, rules);
  }
}
