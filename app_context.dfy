/**
 * The application store: its state, the reducer that is its only transition function, and the
 * store object through which screens dispatch actions.
 */
module AppContext {
  import opened Wrappers
  import opened Text
  import opened Dict
  import opened Entities
  import opened RulesEngine

  datatype AppState = AppState(
    interfaceMode: string,
    currentPatient: Record,
    consultation: Consultation,
    agreement: Agreement,
    payment: PaymentState,
    paymentHistory: seq<PaymentRecord>,
    savedPaymentMethods: seq<SavedMethod>,
    followUps: Dict<FollowUp>,
    followUpQueue: seq<Record>,
    rules: Rules,
    customPatients: seq<Record>,
    tenants: seq<Record>,
    currentTenant: Record)

  /** The starting state; the demo patient, rules and tenants are passed in. */
  function InitialState(firstPatient: Record, defaultRules: Rules, tenants: seq<Record>, firstTenant: Record): (s: AppState)
    ensures s.savedPaymentMethods == [] && s.paymentHistory == [] && s.followUps == [] && s.customPatients == []
    ensures !s.agreement.finalized && !s.agreement.signed && !s.payment.completed
  {
    AppState(
      "clinic",
      firstPatient,
      Consultation("Braces \U{2013} Full Treatment", 5000.0, 0.0, 1000.0, 12, []),
      Agreement(false, false, None, false, None),
      PaymentState(false, None, None, None),
      [], [], [], [], defaultRules, [], tenants, firstTenant)
  }

  /** The fields an `UPDATE_CONSULTATION` payload may carry; None means "not in the payload". */
  datatype ConsultationPatch = ConsultationPatch(
    treatmentName: Option<string>,
    totalCost: Option<real>,
    insuranceCoverage: Option<real>,
    downPayment: Option<real>,
    installments: Option<int>,
    breakdown: Option<seq<LineItem>>)

  /** The fields an `UPDATE_RULES` payload may carry. */
  datatype RulesPatch = RulesPatch(
    minDownPayment: Option<real>,
    maxInstallmentMonths: Option<int>,
    allowZeroDownPayment: Option<bool>,
    maxDiscountPercent: Option<real>,
    minMonthlyPayment: Option<real>)

  /** Action types. Clock readings, which the reducer takes from `Date.now()`, travel with the action. */
  datatype Action =
    | SetInterfaceMode(mode: string)
    | UpdatePatient(patient: Record)
    | CreatePatient(patientData: Record, now: int)
    | BulkImportPatients(patientsData: seq<Record>, now: int)
    | UpdateConsultation(consultationPatch: ConsultationPatch)
    | ApplyAISuggestion(suggested: Plan)
    | FinalizeAgreement
    | SignAgreement(signatureData: string, now: int)
    | SendForSignature(nowIso: string)
    | CompletePayment(transactionId: string, payMethod: string, amount: Option<real>, paymentType: Option<string>, nowIso: string)
    | AddPaymentHistory(paymentRecord: PaymentRecord)
    | SetFollowUp(patientId: string, agreementId: string, status: Option<string>, sequence: Option<string>,
                  timeline: Option<seq<TimelineStep>>, communications: Option<seq<Communication>>)
    | UpdateFollowUpCommunications(patientId: string, agreementId: string, newCommunications: seq<Communication>)
    | UpdateRules(rulesPatch: RulesPatch)
    | SetCurrentTenant(tenant: Record)
    | SavePaymentMethod(savedMethod: SavedMethod)
    | RemovePaymentMethod(methodId: string)
    | OtherAction(actionType: string)

  /** `{ ...consultation, ...payload }`. */
  function MergeConsultation(c: Consultation, p: ConsultationPatch): Consultation {
    Consultation(
      p.treatmentName.GetOr(c.treatmentName), p.totalCost.GetOr(c.totalCost),
      p.insuranceCoverage.GetOr(c.insuranceCoverage), p.downPayment.GetOr(c.downPayment),
      p.installments.GetOr(c.installments), p.breakdown.GetOr(c.breakdown))
  }

  /** `{ ...rules, ...payload }`. */
  function MergeRules(r: Rules, p: RulesPatch): Rules {
    Rules(
      p.minDownPayment.GetOr(r.minDownPayment), p.maxInstallmentMonths.GetOr(r.maxInstallmentMonths),
      p.allowZeroDownPayment.GetOr(r.allowZeroDownPayment), p.maxDiscountPercent.GetOr(r.maxDiscountPercent),
      p.minMonthlyPayment.GetOr(r.minMonthlyPayment))
  }

  /** The store key of a follow-up: `${patientId}_${agreementId}`. */
  function FollowUpKey(patientId: string, agreementId: string): string {
    patientId + "_" + agreementId
  }

  /** `x || fallback` for a number: 0 and a missing value are falsy. */
  function OrNumber(x: Option<real>, fallback: real): real {
    if x.Some? && x.value != 0.0 then x.value else fallback
  }

  /** `x || fallback` for text: "" and a missing value are falsy. */
  function OrText(x: Option<string>, fallback: string): string {
    if x.Some? && x.value != "" then x.value else fallback
  }

  /** The id a bulk import gives the patient at `index`. */
  function ImportId(now: int, index: nat): string {
    "patient-import-" + IntToString(now) + "-" + NatToString(index)
  }

  /** The patients of a bulk import, each given its `ImportId`. */
  function ImportedPatients(data: seq<Record>, now: int): (ps: seq<Record>)
    ensures |ps| == |data|
  {
    seq(|data|, k requires 0 <= k < |data| => Put(data[k], "id", Str(ImportId(now, k))))
  }

  /** The record `COMPLETE_PAYMENT` appends to the history. */
  function SessionPaymentRecord(s: AppState, transactionId: string, payMethod: string, amount: Option<real>,
                                paymentType: Option<string>, nowIso: string): PaymentRecord
  {
    PaymentRecord(
      transactionId, nowIso, OrNumber(amount, s.consultation.downPayment), OrText(paymentType, "Down Payment"),
      "Completed", transactionId, payMethod, TextField(s.currentPatient, "id"), TextField(s.currentPatient, "name"))
  }

  /** `appReducer`. */
  function Reduce(s: AppState, a: Action): (r: AppState)
    ensures a.SavePaymentMethod? || a.RemovePaymentMethod? || a.OtherAction? ==> r == s
    ensures !a.UpdateRules? ==> r.rules == s.rules
    ensures !(a.CreatePatient? || a.BulkImportPatients?) ==> r.customPatients == s.customPatients
    ensures |s.paymentHistory| <= |r.paymentHistory| && r.paymentHistory[..|s.paymentHistory|] == s.paymentHistory
  {
    match a
    case SetInterfaceMode(mode) => s.(interfaceMode := mode)
    case UpdatePatient(patient) => s.(currentPatient := patient)
    case CreatePatient(data, now) =>
      var newPatient := Put(data, "id", Str("patient-" + IntToString(now)));
      s.(currentPatient := newPatient, customPatients := s.customPatients + [newPatient])
    case BulkImportPatients(data, now) =>
      s.(customPatients := s.customPatients + ImportedPatients(data, now))
    case UpdateConsultation(p) => s.(consultation := MergeConsultation(s.consultation, p))
    case ApplyAISuggestion(plan) =>
      s.(consultation := s.consultation.(downPayment := plan.downPayment, installments := plan.installments))
    case FinalizeAgreement => s.(agreement := s.agreement.(finalized := true))
    case SignAgreement(data, now) =>
      s.(agreement := s.agreement.(signed := true, signatureData := Some(data)),
         payment := s.payment.(startTime := Some(now)))
    case SendForSignature(nowIso) =>
      s.(agreement := s.agreement.(sentForSignature := true, sentDate := Some(nowIso)))
    case CompletePayment(txn, payMethod, amount, paymentType, nowIso) =>
      s.(payment := s.payment.(completed := true, transactionId := Some(txn), payMethod := Some(payMethod)),
         paymentHistory := s.paymentHistory + [SessionPaymentRecord(s, txn, payMethod, amount, paymentType, nowIso)])
    case AddPaymentHistory(record) => s.(paymentHistory := s.paymentHistory + [record])
    case SetFollowUp(pid, aid, status, sequence, timeline, comms) =>
      var entry := FollowUp(status, sequence, Some(timeline.GetOr([])), comms.GetOr([]));
      s.(followUps := Put(s.followUps, FollowUpKey(pid, aid), entry))
    case UpdateFollowUpCommunications(pid, aid, comms) =>
      var key := FollowUpKey(pid, aid);
      var entry := match Get(s.followUps, key)
        case Some(f) => f.(communications := comms)
        case None => FollowUp(None, None, None, comms);
      s.(followUps := Put(s.followUps, key, entry))
    case UpdateRules(p) => s.(rules := MergeRules(s.rules, p))
    case SetCurrentTenant(tenant) => s.(currentTenant := tenant)
    // SAVE_PAYMENT_METHOD, REMOVE_PAYMENT_METHOD and unknown types fall through to `default`.
    case SavePaymentMethod(_) => s
    case RemovePaymentMethod(_) => s
    case OtherAction(_) => s
  }

  /** A sequence of dispatches. */
  function ReduceAll(s: AppState, actions: seq<Action>): AppState
    decreases |actions|
  {
    if actions == [] then s else ReduceAll(Reduce(s, actions[0]), actions[1..])
  }

  /** The `useReducer` store: `dispatch` replaces the state by the reducer's result. */
  class Store {
    var state: AppState

    constructor (initial: AppState)
      ensures state == initial
    {
      state := initial;
    }

    method Dispatch(a: Action)
      modifies this
      ensures state == Reduce(old(state), a)
    {
      state := Reduce(state, a);
    }
  }

  // ---------------------------------------------------------------- properties

  /** UPDATE_CONSULTATION overwrites exactly the fields in the payload; nothing outside the consultation changes. */
  lemma UpdateConsultationMerges(s: AppState, p: ConsultationPatch)
    ensures var r := Reduce(s, UpdateConsultation(p));
      && r == s.(consultation := r.consultation)
      && (p.downPayment.Some? ==> r.consultation.downPayment == p.downPayment.value)
      && (p.downPayment.None? ==> r.consultation.downPayment == s.consultation.downPayment)
      && (p.installments.Some? ==> r.consultation.installments == p.installments.value)
      && (p.installments.None? ==> r.consultation.installments == s.consultation.installments)
      && (p.totalCost.Some? ==> r.consultation.totalCost == p.totalCost.value)
      && (p.totalCost.None? ==> r.consultation.totalCost == s.consultation.totalCost)
      && (p.insuranceCoverage.Some? ==> r.consultation.insuranceCoverage == p.insuranceCoverage.value)
      && (p.insuranceCoverage.None? ==> r.consultation.insuranceCoverage == s.consultation.insuranceCoverage)
      && (p.treatmentName.Some? ==> r.consultation.treatmentName == p.treatmentName.value)
      && (p.treatmentName.None? ==> r.consultation.treatmentName == s.consultation.treatmentName)
      && (p.breakdown.Some? ==> r.consultation.breakdown == p.breakdown.value)
      && (p.breakdown.None? ==> r.consultation.breakdown == s.consultation.breakdown)
  {
  }

  /** Merging the same payload twice is the same as merging it once; an empty payload changes nothing. */
  lemma MergeIdempotent(c: Consultation, p: ConsultationPatch, r: Rules, q: RulesPatch)
    ensures MergeConsultation(MergeConsultation(c, p), p) == MergeConsultation(c, p)
    ensures MergeConsultation(c, ConsultationPatch(None, None, None, None, None, None)) == c
    ensures MergeRules(MergeRules(r, q), q) == MergeRules(r, q)
    ensures MergeRules(r, RulesPatch(None, None, None, None, None)) == r
  {
  }

  /** UPDATE_RULES overwrites exactly the rule fields in the payload. */
  lemma UpdateRulesMerges(s: AppState, p: RulesPatch)
    ensures var r := Reduce(s, UpdateRules(p));
      && r == s.(rules := r.rules)
      && (p.minDownPayment.Some? ==> r.rules.minDownPayment == p.minDownPayment.value)
      && (p.minDownPayment.None? ==> r.rules.minDownPayment == s.rules.minDownPayment)
      && (p.maxInstallmentMonths.Some? ==> r.rules.maxInstallmentMonths == p.maxInstallmentMonths.value)
      && (p.maxInstallmentMonths.None? ==> r.rules.maxInstallmentMonths == s.rules.maxInstallmentMonths)
      && (p.allowZeroDownPayment.Some? ==> r.rules.allowZeroDownPayment == p.allowZeroDownPayment.value)
      && (p.allowZeroDownPayment.None? ==> r.rules.allowZeroDownPayment == s.rules.allowZeroDownPayment)
      && (p.maxDiscountPercent.Some? ==> r.rules.maxDiscountPercent == p.maxDiscountPercent.value)
      && (p.maxDiscountPercent.None? ==> r.rules.maxDiscountPercent == s.rules.maxDiscountPercent)
      && (p.minMonthlyPayment.Some? ==> r.rules.minMonthlyPayment == p.minMonthlyPayment.value)
      && (p.minMonthlyPayment.None? ==> r.rules.minMonthlyPayment == s.rules.minMonthlyPayment)
  {
  }

  /** APPLY_AI_SUGGESTION changes only the consultation's down payment and installments. */
  lemma ApplySuggestionScope(s: AppState, plan: Plan)
    ensures var r := Reduce(s, ApplyAISuggestion(plan));
      && r.consultation.downPayment == plan.downPayment && r.consultation.installments == plan.installments
      && r.consultation.(downPayment := s.consultation.downPayment, installments := s.consultation.installments) == s.consultation
      && r == s.(consultation := r.consultation)
  {
  }

  /** FINALIZE_AGREEMENT only sets `finalized`; SEND_FOR_SIGNATURE only sets `sentForSignature` and `sentDate`. */
  lemma FinalizeAndSendScope(s: AppState, nowIso: string)
    ensures Reduce(s, FinalizeAgreement) == s.(agreement := s.agreement.(finalized := true))
    ensures var r := Reduce(s, SendForSignature(nowIso));
      && r.agreement.sentForSignature && r.agreement.sentDate == Some(nowIso)
      && r.agreement.(sentForSignature := s.agreement.sentForSignature, sentDate := s.agreement.sentDate) == s.agreement
      && r == s.(agreement := r.agreement)
  {
  }

  /** SIGN_AGREEMENT signs whether or not the agreement was finalized, and starts the payment clock. */
  lemma SignScope(s: AppState, data: string, now: int)
    ensures var r := Reduce(s, SignAgreement(data, now));
      && r.agreement.signed && r.agreement.signatureData == Some(data)
      && r.agreement.finalized == s.agreement.finalized
      && r.payment.startTime == Some(now)
      && r == s.(agreement := r.agreement, payment := r.payment)
  {
  }

  /**
   * COMPLETE_PAYMENT appends exactly one completed record whose id is the transaction id, dated
   * now and filed under the current patient; a falsy amount falls back to the consultation's down
   * payment and a falsy type to "Down Payment", and a truthy one is stored as given.
   */
  lemma CompletePaymentRecord(s: AppState, txn: string, payMethod: string, amount: Option<real>, paymentType: Option<string>, nowIso: string)
    ensures var r := Reduce(s, CompletePayment(txn, payMethod, amount, paymentType, nowIso));
      && |r.paymentHistory| == |s.paymentHistory| + 1
      && r.paymentHistory[..|s.paymentHistory|] == s.paymentHistory
      && var rec := r.paymentHistory[|s.paymentHistory|];
      && rec.status == "Completed" && rec.id == txn && rec.transactionId == txn && rec.payMethod == payMethod
      && (amount == None || amount == Some(0.0) ==> rec.amount == s.consultation.downPayment)
      && (amount.Some? && amount.value != 0.0 ==> rec.amount == amount.value)
      && (paymentType == None || paymentType == Some("") ==> rec.kind == "Down Payment")
      && (paymentType.Some? && paymentType.value != "" ==> rec.kind == paymentType.value)
      && rec.date == nowIso
      && rec.patientId == TextField(s.currentPatient, "id") && rec.patientName == TextField(s.currentPatient, "name")
      && r.payment.completed && r.payment.transactionId == Some(txn) && r.payment.payMethod == Some(payMethod)
      && r.payment.startTime == s.payment.startTime
  {
  }

  /**
   * SET_FOLLOW_UP stores its data under `${patientId}_${agreementId}`, with a missing timeline
   * or communication list stored as []; other keys keep their entries.
   */
  lemma SetFollowUpStores(s: AppState, pid: string, aid: string, status: Option<string>, sequence: Option<string>,
                          timeline: Option<seq<TimelineStep>>, comms: Option<seq<Communication>>, other: string)
    requires other != FollowUpKey(pid, aid)
    ensures var r := Reduce(s, SetFollowUp(pid, aid, status, sequence, timeline, comms));
      && Get(r.followUps, FollowUpKey(pid, aid)) == Some(FollowUp(status, sequence, Some(timeline.GetOr([])), comms.GetOr([])))
      && (timeline == None ==> Get(r.followUps, FollowUpKey(pid, aid)).value.timeline == Some([]))
      && (comms == None ==> Get(r.followUps, FollowUpKey(pid, aid)).value.communications == [])
      && Get(r.followUps, other) == Get(s.followUps, other)
      && r == s.(followUps := r.followUps)
  {
  }

  /** UPDATE_FOLLOW_UP_COMMUNICATIONS replaces only the communications under the key. */
  lemma UpdateCommunicationsScope(s: AppState, pid: string, aid: string, comms: seq<Communication>, other: string)
    requires other != FollowUpKey(pid, aid)
    ensures var r := Reduce(s, UpdateFollowUpCommunications(pid, aid, comms));
      var key := FollowUpKey(pid, aid);
      && Get(r.followUps, key).Some?
      && Get(r.followUps, key).value.communications == comms
      && (Get(s.followUps, key).Some? ==> Get(r.followUps, key).value == Get(s.followUps, key).value.(communications := comms))
      && (Get(s.followUps, key).None? ==> Get(r.followUps, key).value == FollowUp(None, None, None, comms))
      && Get(r.followUps, other) == Get(s.followUps, other)
      && r == s.(followUps := r.followUps)
  {
  }

  /** CREATE_PATIENT appends one patient, stamped with an id, and makes it the current patient. */
  lemma CreatePatientAppends(s: AppState, data: Record, now: int)
    ensures var r := Reduce(s, CreatePatient(data, now));
      && |r.customPatients| == |s.customPatients| + 1
      && r.customPatients[..|s.customPatients|] == s.customPatients
      && r.currentPatient == r.customPatients[|s.customPatients|]
      && Get(r.currentPatient, "id") == Some(Str("patient-" + IntToString(now)))
      && forall key :: key != "id" ==> Get(r.currentPatient, key) == Get(data, key)
  {
    var r := Reduce(s, CreatePatient(data, now));
    assert r.customPatients[..|s.customPatients|] == s.customPatients;
  }

  /** BULK_IMPORT_PATIENTS appends all imported patients in order and leaves the current patient alone. */
  lemma BulkImportAppends(s: AppState, batch: seq<Record>, now: int)
    ensures var r := Reduce(s, BulkImportPatients(batch, now));
      && |r.customPatients| == |s.customPatients| + |batch|
      && r.customPatients[..|s.customPatients|] == s.customPatients
      && r.currentPatient == s.currentPatient
      && forall k :: 0 <= k < |batch| ==>
           forall key :: key != "id" ==> Get(r.customPatients[|s.customPatients| + k], key) == Get(batch[k], key)
  {
    var r := Reduce(s, BulkImportPatients(batch, now));
    var imported := ImportedPatients(batch, now);
    assert r.customPatients == s.customPatients + imported;
    assert r.customPatients[..|s.customPatients|] == s.customPatients;
    forall k | 0 <= k < |batch|
      ensures forall key :: key != "id" ==> Get(r.customPatients[|s.customPatients| + k], key) == Get(batch[k], key)
    {
      assert r.customPatients[|s.customPatients| + k] == imported[k];
    }
  }

  /** The two payment-method actions, and any unknown action type, leave the state as it was. */
  lemma UnhandledActionsChangeNothing(s: AppState, m: SavedMethod, id: string, t: string)
    ensures Reduce(s, SavePaymentMethod(m)) == s
    ensures Reduce(s, RemovePaymentMethod(id)) == s
    ensures Reduce(s, OtherAction(t)) == s
  {
  }

  /** No action changes the saved payment methods, so they stay as they started ([] from InitialState). */
  lemma {:induction false} SavedMethodsNeverChange(s: AppState, actions: seq<Action>)
    ensures ReduceAll(s, actions).savedPaymentMethods == s.savedPaymentMethods
    decreases |actions|
  {
    if actions != [] {
      assert Reduce(s, actions[0]).savedPaymentMethods == s.savedPaymentMethods;
      SavedMethodsNeverChange(Reduce(s, actions[0]), actions[1..]);
    }
  }

  /** The payment history only grows, whatever is dispatched. */
  lemma {:induction false} HistoryOnlyGrows(s: AppState, actions: seq<Action>)
    ensures var r := ReduceAll(s, actions);
      |r.paymentHistory| >= |s.paymentHistory| && r.paymentHistory[..|s.paymentHistory|] == s.paymentHistory
    decreases |actions|
  {
    if actions != [] {
      var s' := Reduce(s, actions[0]);
      assert |s'.paymentHistory| >= |s.paymentHistory| && s'.paymentHistory[..|s.paymentHistory|] == s.paymentHistory;
      HistoryOnlyGrows(s', actions[1..]);
      var r := ReduceAll(s', actions[1..]);
      assert r.paymentHistory[..|s.paymentHistory|] == r.paymentHistory[..|s'.paymentHistory|][..|s.paymentHistory|];
    }
  }
}
