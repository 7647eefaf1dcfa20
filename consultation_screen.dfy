/**
 * The consultation screen: the automatic rule check of the stored plan, the AI suggestion
 * pipeline (suggest, validate, repair, revalidate, apply) and the gate on the proceed buttons.
 */
module ConsultationScreen {
  import opened Wrappers
  import opened Text
  import opened Entities
  import opened RulesEngine
  import opened MockAI
  import opened AppContext
  import opened PaymentPlanEditor

  /** A suggestion as shown on screen: the suggester's output, possibly repaired by the rules engine. */
  datatype ShownSuggestion = ShownSuggestion(
    strategy: Strategy,
    suggestedChanges: Plan,
    confidence: real,
    dceAutoFixed: bool,
    originalSuggestion: Option<Plan>)

  function CurrentOf(c: Consultation): CurrentPlan {
    CurrentPlan(c.totalCost, c.downPayment, c.installments)
  }

  /** The suggester's raw proposal for the stored consultation. */
  function RawSuggestion(objection: string, c: Consultation): Plan {
    GetObjectionSuggestion(objection, CurrentOf(c)).suggestedChanges
  }

  /** The violations of a plan against the gross total cost. */
  function GrossViolations(p: Plan, c: Consultation, rules: Rules): seq<Violation> {
    Violations(p.downPayment, p.installments, c.totalCost, rules)
  }

  /** The suggestion the screen ends up with: repaired exactly when the raw one fails the rules. */
  function Review(objection: string, c: Consultation, rules: Rules): ShownSuggestion {
    var raw := GetObjectionSuggestion(objection, CurrentOf(c));
    var p := raw.suggestedChanges;
    if GrossViolations(p, c, rules) == [] then
      ShownSuggestion(raw.strategy, p, raw.confidence, false, None)
    else
      ShownSuggestion(raw.strategy, AutoFix(p.downPayment, p.installments, c.totalCost, rules), raw.confidence, true, Some(p))
  }

  /**
   * The body of the suggestion request: ask the suggester, validate its plan against the gross
   * cost, and when it fails replace the plan by its repair, remember the original and revalidate.
   */
  method SuggestAndRepair(objection: string, c: Consultation, rules: Rules)
    returns (aiSuggestion: ShownSuggestion, errors: seq<Violation>, valid: bool)
    ensures aiSuggestion == Review(objection, c, rules)
    ensures errors == GrossViolations(aiSuggestion.suggestedChanges, c, rules)
    ensures valid == (errors == [])
  {
    var ai := GetObjectionSuggestion(objection, CurrentOf(c));
    aiSuggestion := ShownSuggestion(ai.strategy, ai.suggestedChanges, ai.confidence, false, None);
    errors := ValidatePaymentPlan(aiSuggestion.suggestedChanges.downPayment,
                                  aiSuggestion.suggestedChanges.installments, c.totalCost, rules);
    valid := |errors| == 0;
    if |errors| > 0 {
      var originalDownPayment := aiSuggestion.suggestedChanges.downPayment;
      var originalInstallments := aiSuggestion.suggestedChanges.installments;
      var fixed := AutoFixPaymentPlan(originalDownPayment, originalInstallments, c.totalCost, rules);
      aiSuggestion := aiSuggestion.(suggestedChanges := fixed);
      aiSuggestion := aiSuggestion.(dceAutoFixed := true);
      aiSuggestion := aiSuggestion.(originalSuggestion := Some(Plan(originalDownPayment, originalInstallments)));
      errors := ValidatePaymentPlan(fixed.downPayment, fixed.installments, c.totalCost, rules);
      valid := |errors| == 0;
    }
  }

  class Screen {
    const store: Store
    var validationErrors: seq<Violation>
    var dceValidated: bool
    var objection: string
    var suggestion: Option<ShownSuggestion>
    var showAISection: bool
    var aiValidationErrors: seq<Violation>
    var aiSuggestionValid: bool

    constructor (store: Store)
      ensures this.store == store
      ensures validationErrors == [] && !dceValidated && objection == "" && suggestion == None
      ensures !showAISection && aiValidationErrors == [] && aiSuggestionValid
    {
      this.store := store;
      validationErrors := [];
      dceValidated := false;
      objection := "";
      suggestion := None;
      showAISection := false;
      aiValidationErrors := [];
      aiSuggestionValid := true;
    }

    /** Both proceed buttons are enabled only while no violation is displayed. */
    predicate ProceedEnabled()
      reads this
    {
      |validationErrors| == 0
    }

    /**
     * The auto-validate effect: the stored plan checked against the gross total cost. After it,
     * the proceed buttons are enabled exactly when the stored plan passes every check.
     */
    method AutoValidate()
      modifies this
      ensures var c := store.state.consultation;
        validationErrors == Violations(c.downPayment, c.installments, c.totalCost, store.state.rules)
      ensures dceValidated == (validationErrors == [])
      ensures var c := store.state.consultation;
        ProceedEnabled() <==> Passes(c.downPayment, c.installments, c.totalCost, store.state.rules)
      ensures objection == old(objection) && suggestion == old(suggestion) && showAISection == old(showAISection)
      ensures aiValidationErrors == old(aiValidationErrors) && aiSuggestionValid == old(aiSuggestionValid)
    {
      var c := store.state.consultation;
      var errors := ValidatePaymentPlan(c.downPayment, c.installments, c.totalCost, store.state.rules);
      validationErrors := errors;
      dceValidated := |errors| == 0;
      PassesIffNoViolations(c.downPayment, c.installments, c.totalCost, store.state.rules);
    }

    /** The editor's `onValidationChange` callback. */
    method OnValidationChange(errors: seq<Violation>)
      modifies this
      ensures validationErrors == errors && dceValidated == (errors == [])
      ensures objection == old(objection) && suggestion == old(suggestion) && showAISection == old(showAISection)
      ensures aiValidationErrors == old(aiValidationErrors) && aiSuggestionValid == old(aiSuggestionValid)
    {
      validationErrors := errors;
      dceValidated := |errors| == 0;
    }

    /**
     * A down-payment keystroke in the embedded editor, followed by the effects a commit triggers.
     * The store's reducer builds a new consultation object, so the editor's re-sync runs on every
     * commit and its local installments follow the store again. The screen's auto-validate runs
     * when the stored plan changed: whichever writes `validationErrors` last wins, so a committed
     * change shows the gross-cost check and a blocked one keeps the editor's net-cost errors.
     */
    method EditDownPayment(editor: Editor, parsed: Option<real>)
      requires editor.store == store
      modifies this, editor, store
      ensures var d := OrNumber(parsed, 0.0);
        var blocked := DownPaymentBlocked(d, old(editor.localInstallments), old(editor.Cost()), old(store.state.rules));
        && (blocked ==> store.state == old(store.state))
        && (!blocked ==> store.state == Reduce(old(store.state), UpdateConsultation(DownPaymentPatch(d))))
        && (blocked || d == old(store.state.consultation.downPayment) ==>
              validationErrors == Violations(d, old(editor.localInstallments), old(editor.Cost()), old(store.state.rules)))
        && (!blocked && d != old(store.state.consultation.downPayment) ==>
              validationErrors == Violations(d, old(store.state.consultation.installments),
                                             old(store.state.consultation.totalCost), old(store.state.rules)))
      ensures dceValidated == (validationErrors == [])
      ensures var d := OrNumber(parsed, 0.0);
        var blocked := DownPaymentBlocked(d, old(editor.localInstallments), old(editor.Cost()), old(store.state.rules));
        && editor.localDownPayment == d
        && editor.localInstallments == (if blocked then old(editor.localInstallments) else old(store.state.consultation.installments))
        && editor.errors == Violations(d, old(editor.localInstallments), old(editor.Cost()), old(store.state.rules))
      ensures objection == old(objection) && suggestion == old(suggestion) && showAISection == old(showAISection)
      ensures aiValidationErrors == old(aiValidationErrors) && aiSuggestionValid == old(aiSuggestionValid)
    {
      var before := store.state.consultation.downPayment;
      ghost var s0, i0, cost0 := store.state, editor.localInstallments, editor.Cost();
      ghost var d := OrNumber(parsed, 0.0);
      var reported, committed := editor.HandleDownPaymentChange(parsed);
      assert reported == Violations(d, i0, cost0, s0.rules);
      ghost var s1 := store.state;
      assert committed ==> s1.consultation == s0.consultation.(downPayment := d);
      assert committed ==> s1.rules == s0.rules;
      OnValidationChange(reported);
      if committed {
        editor.SyncFromConsultation();
      }
      if store.state.consultation.downPayment != before {
        AutoValidate();
      }
    }

    /**
     * `handleGetAISuggestion`, with the delay collapsed. A blank objection changes nothing;
     * otherwise the suggestion is validated, repaired if it fails, revalidated and shown.
     */
    method HandleGetAISuggestion()
      modifies this
      ensures Blank(old(objection)) ==>
        suggestion == old(suggestion) && aiValidationErrors == old(aiValidationErrors) && aiSuggestionValid == old(aiSuggestionValid)
      ensures !Blank(old(objection)) ==>
        var c := store.state.consultation;
        var shown := Review(objection, c, store.state.rules);
        && suggestion == Some(shown)
        && aiValidationErrors == GrossViolations(shown.suggestedChanges, c, store.state.rules)
        && aiSuggestionValid == (aiValidationErrors == [])
      ensures objection == old(objection) && showAISection == old(showAISection)
      ensures validationErrors == old(validationErrors) && dceValidated == old(dceValidated)
    {
      var blank := TrimsToEmpty(objection);
      if !blank {
        ShowSuggestion();
      }
    }

    /** The delayed part of `handleGetAISuggestion`: the reviewed suggestion and its check are shown. */
    method ShowSuggestion()
      modifies this
      ensures var c := store.state.consultation;
        var shown := Review(objection, c, store.state.rules);
        && suggestion == Some(shown)
        && aiValidationErrors == GrossViolations(shown.suggestedChanges, c, store.state.rules)
        && aiSuggestionValid == (aiValidationErrors == [])
      ensures objection == old(objection) && showAISection == old(showAISection)
      ensures validationErrors == old(validationErrors) && dceValidated == old(dceValidated)
    {
      var aiSuggestion, errors, valid := SuggestAndRepair(objection, store.state.consultation, store.state.rules);
      aiValidationErrors := errors;
      aiSuggestionValid := valid;
      suggestion := Some(aiSuggestion);
    }

    /** `handleApplySuggestion`: only a present and valid suggestion reaches the store. */
    method HandleApplySuggestion()
      modifies this, store
      ensures old(suggestion.Some? && aiSuggestionValid) ==>
        && store.state == Reduce(old(store.state), ApplyAISuggestion(old(suggestion.value.suggestedChanges)))
        && suggestion == None && objection == "" && !showAISection
        && aiValidationErrors == [] && aiSuggestionValid
      ensures !old(suggestion.Some? && aiSuggestionValid) ==>
        && store.state == old(store.state) && suggestion == old(suggestion) && objection == old(objection)
        && showAISection == old(showAISection)
        && aiValidationErrors == old(aiValidationErrors) && aiSuggestionValid == old(aiSuggestionValid)
      ensures validationErrors == old(validationErrors) && dceValidated == old(dceValidated)
    {
      if suggestion.Some? && aiSuggestionValid {
        store.Dispatch(ApplyAISuggestion(suggestion.value.suggestedChanges));
        suggestion := None;
        objection := "";
        showAISection := false;
        aiValidationErrors := [];
        aiSuggestionValid := true;
      }
    }
  }

  // ---------------------------------------------------------------- properties

  /**
   * The repair is applied exactly when the raw suggestion fails: a passing suggestion keeps its
   * values and is not flagged, a failing one carries the repaired plan and remembers the original.
   */
  lemma ReviewRepairsExactlyFailing(objection: string, c: Consultation, rules: Rules)
    ensures var shown := Review(objection, c, rules);
      var raw := RawSuggestion(objection, c);
      && (shown.dceAutoFixed <==> !Passes(raw.downPayment, raw.installments, c.totalCost, rules))
      && (!shown.dceAutoFixed ==> shown.suggestedChanges == raw && shown.originalSuggestion == None)
      && (shown.dceAutoFixed ==>
            shown.suggestedChanges == AutoFix(raw.downPayment, raw.installments, c.totalCost, rules)
            && shown.originalSuggestion == Some(raw))
      && shown.strategy == SelectStrategy(objection)
  {
    var raw := RawSuggestion(objection, c);
    PassesIffNoViolations(raw.downPayment, raw.installments, c.totalCost, rules);
  }

  /**
   * Under rules the repair can satisfy, every shown suggestion passes, so it can be applied.
   */
  lemma ShownSuggestionPassesWhen(objection: string, c: Consultation, rules: Rules)
    requires rules.maxInstallmentMonths >= 1 && rules.minDownPayment <= c.totalCost
    requires rules.minDownPayment > 0.0 || rules.allowZeroDownPayment
    ensures GrossViolations(Review(objection, c, rules).suggestedChanges, c, rules) == []
  {
    var raw := RawSuggestion(objection, c);
    AutoFixPassesWhen(raw.downPayment, raw.installments, c.totalCost, rules);
    PassesIffNoViolations(raw.downPayment, raw.installments, c.totalCost, rules);
    var fixed := AutoFix(raw.downPayment, raw.installments, c.totalCost, rules);
    PassesIffNoViolations(fixed.downPayment, fixed.installments, c.totalCost, rules);
  }

  /**
   * When the minimum exceeds the total cost, no shown suggestion passes, so the apply button
   * never reaches the store.
   */
  lemma ShownSuggestionFailsWhenMinimumExceedsCost(objection: string, c: Consultation, rules: Rules)
    requires rules.minDownPayment > c.totalCost
    ensures GrossViolations(Review(objection, c, rules).suggestedChanges, c, rules) != []
  {
    var raw := RawSuggestion(objection, c);
    PassesIffNoViolations(raw.downPayment, raw.installments, c.totalCost, rules);
    AutoFixFailsWithout(raw.downPayment, raw.installments, c.totalCost, rules);
    var fixed := AutoFix(raw.downPayment, raw.installments, c.totalCost, rules);
    PassesIffNoViolations(fixed.downPayment, fixed.installments, c.totalCost, rules);
  }

  /**
   * The two cost bases disagree: with 4,500 of a 5,000 treatment covered, a 1,000 down payment
   * over 12 months passes against the gross cost but exceeds the 500 the patient owes.
   */
  lemma CostBasesDisagree()
    ensures var c := Consultation("Braces", 5000.0, 4500.0, 1000.0, 12, []);
      && PatientCost(c) == 500.0
      && Violations(1000.0, 12, c.totalCost, ExampleRules) == []
      && Violations(1000.0, 12, PatientCost(c), ExampleRules) == [ViolationOf(Ceiling, ExampleRules)]
      && DownPaymentBlocked(1000.0, 12, PatientCost(c), ExampleRules)
  {
    var c := Consultation("Braces", 5000.0, 4500.0, 1000.0, 12, []);
    ViolationsExactlyFiring(1000.0, 12, c.totalCost, ExampleRules);
    assert Violations(1000.0, 12, 500.0, ExampleRules) == [ViolationOf(Ceiling, ExampleRules)];
    DownPaymentBlockedIff(1000.0, 12, 500.0, ExampleRules);
  }
  /**
   * The stored plan checked as evidently intended: against the patient cost, the basis the
   * embedded editor uses. It is empty exactly when the stored plan passes on that basis.
   */
  function NetViolations(s: AppState): (r: seq<Violation>)
    ensures var c := s.consultation;
      r == [] <==> Passes(c.downPayment, c.installments, PatientCost(c), s.rules)
  {
    var c := s.consultation;
    PassesIffNoViolations(c.downPayment, c.installments, PatientCost(c), s.rules);
    Violations(c.downPayment, c.installments, PatientCost(c), s.rules)
  }

  /**
   * With the net check, a committed down-payment keystroke leaves the screen and the editor
   * showing the same violations, as long as the editor's installment count is the stored one.
   */
  lemma NetCheckAgreesWithEditor(s: AppState, d: real, localInstallments: int)
    requires localInstallments == s.consultation.installments
    ensures NetViolations(Reduce(s, UpdateConsultation(DownPaymentPatch(d))))
      == Violations(d, localInstallments, PatientCost(s.consultation), s.rules)
  {
    CommittedErrorsMatchStore(s, d, localInstallments);
  }
}
