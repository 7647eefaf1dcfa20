/**
 * The patient's checkout: the saved methods offered for the chosen method type, the guards of a
 * payment, the masked method that may be saved, and removal of a saved method.
 */
module PatientPayment {
  import opened Wrappers
  import opened Text
  import opened Entities
  import opened AppContext

  /** `savedPaymentMethods.filter(m => m.type === paymentMethod)`, in order. */
  function SavedMethods(all: seq<SavedMethod>, kind: string): (r: seq<SavedMethod>)
    ensures |r| <= |all|
    ensures forall m :: m in r ==> m in all && m.kind == kind
    ensures forall m :: m in all && m.kind == kind ==> m in r
  {
    if all == [] then []
    else
      var rest := SavedMethods(all[1..], kind);
      assert forall m :: m in all ==> m == all[0] || m in all[1..];
      if all[0].kind == kind then [all[0]] + rest else rest
  }

  /** `!selectedSavedMethod`: no id, or the empty id. */
  predicate NoSelection(selected: Option<string>) {
    selected.None? || selected.value == ""
  }

  /** The first guard: saved methods exist, "new card" is off, and none is selected. */
  predicate SelectionMissing(useNewCard: bool, selected: Option<string>, savedCount: nat) {
    !useNewCard && NoSelection(selected) && savedCount > 0
  }

  /** `useNewCard || savedMethods.length === 0`: the details typed in are used. */
  predicate NewDetailsPath(useNewCard: bool, savedCount: nat) {
    useNewCard || savedCount == 0
  }

  /** The second guard: a credit payment needs card number, expiry and CVV; any other type routing and account. */
  predicate DetailsMissing(paymentMethod: string, cardNumber: string, expiry: string, cvv: string,
                           routingNumber: string, accountNumber: string) {
    if paymentMethod == "credit" then cardNumber == "" || expiry == "" || cvv == ""
    else routingNumber == "" || accountNumber == ""
  }

  /** The brand stored for a card: by its first digit. */
  function Brand(cardNumber: string): (brand: string)
    ensures brand in {"Visa", "Mastercard", "Card"}
    ensures cardNumber == "" ==> brand == "Card"
  {
    if StartsWith(cardNumber, "4") then "Visa"
    else if StartsWith(cardNumber, "5") then "Mastercard"
    else "Card"
  }

  /** The method `savePaymentMethod` receives, with its id passed in. */
  function NewMethod(id: string, paymentMethod: string, cardNumber: string, expiry: string,
                     routingNumber: string, accountNumber: string): (m: SavedMethod)
    ensures m.id == id
    ensures m.kind in {"credit", "ach"} && (m.kind == "credit" <==> paymentMethod == "credit")
    ensures m.details.CardDetails? <==> m.kind == "credit"
  {
    if paymentMethod == "credit" then
      SavedMethod(id, "credit", CardDetails(TakeLast(cardNumber, 4), expiry, Brand(cardNumber)))
    else
      SavedMethod(id, "ach", BankDetails("****" + TakeLast(accountNumber, 4), routingNumber))
  }

  /** The method name `completePayment` receives. */
  function MethodLabel(paymentMethod: string): (methodName: string)
    ensures methodName in {"Credit Card", "ACH"}
    ensures methodName == "Credit Card" <==> paymentMethod == "credit"
  {
    if paymentMethod == "credit" then "Credit Card" else "ACH"
  }

  /** The checkout's state. The processing delay is collapsed; ids and the clock are passed in. */
  class Checkout {
    const store: Store
    var paymentMethod: string
    var selectedSavedMethod: Option<string>
    var useNewCard: bool
    var cardNumber: string
    var expiry: string
    var cvv: string
    var routingNumber: string
    var accountNumber: string
    var saveCard: bool
    var processing: bool
    var paid: bool

    constructor (store: Store)
      ensures this.store == store && paymentMethod == "credit" && selectedSavedMethod == None && !useNewCard
      ensures cardNumber == "" && expiry == "" && cvv == "" && routingNumber == "" && accountNumber == ""
      ensures !saveCard && !processing && paid == store.state.payment.completed
    {
      this.store := store;
      paymentMethod := "credit";
      selectedSavedMethod := None;
      useNewCard := false;
      cardNumber := "";
      expiry := "";
      cvv := "";
      routingNumber := "";
      accountNumber := "";
      saveCard := false;
      processing := false;
      paid := store.state.payment.completed;
    }

    /** Whether `handlePayment` stops at one of its guards. */
    predicate Refused(savedCount: nat)
      reads this
    {
      SelectionMissing(useNewCard, selectedSavedMethod, savedCount)
      || (NewDetailsPath(useNewCard, savedCount)
          && DetailsMissing(paymentMethod, cardNumber, expiry, cvv, routingNumber, accountNumber))
    }

    /**
     * `handlePayment`. A refused payment changes nothing. Otherwise the method typed in is saved
     * when `saveCard` is on and the new details are in use (the store ignores that action), and the
     * payment completes with the consultation's down payment.
     */
    method HandlePayment(transactionId: string, methodId: string, nowIso: string) returns (saved: Option<SavedMethod>)
      modifies this, store
      ensures var count := |SavedMethods(old(store.state.savedPaymentMethods), old(paymentMethod))|;
        old(Refused(count)) ==>
          saved == None && store.state == old(store.state) && paid == old(paid) && processing == old(processing)
      ensures var count := |SavedMethods(old(store.state.savedPaymentMethods), old(paymentMethod))|;
        !old(Refused(count)) ==>
          && saved == (if saveCard && NewDetailsPath(useNewCard, count)
                       then Some(NewMethod(methodId, paymentMethod, cardNumber, expiry, routingNumber, accountNumber))
                       else None)
          && store.state == Reduce(old(store.state), CompletePayment(transactionId, MethodLabel(paymentMethod),
                              Some(old(store.state).consultation.downPayment), Some("Down Payment"), nowIso))
          && paid && !processing
      ensures paymentMethod == old(paymentMethod) && selectedSavedMethod == old(selectedSavedMethod)
      ensures useNewCard == old(useNewCard) && saveCard == old(saveCard)
      ensures cardNumber == old(cardNumber) && expiry == old(expiry) && cvv == old(cvv)
      ensures routingNumber == old(routingNumber) && accountNumber == old(accountNumber)
    {
      var savedMethods := SavedMethods(store.state.savedPaymentMethods, paymentMethod);
      if !useNewCard && NoSelection(selectedSavedMethod) {
        if |savedMethods| > 0 {
          return None;
        }
      }
      if useNewCard || |savedMethods| == 0 {
        if paymentMethod == "credit" {
          if cardNumber == "" || expiry == "" || cvv == "" {
            return None;
          }
        } else {
          if routingNumber == "" || accountNumber == "" {
            return None;
          }
        }
      }
      processing := true;
      var downPayment := store.state.consultation.downPayment;
      saved := None;
      if saveCard && (useNewCard || |savedMethods| == 0) {
        var m := NewMethod(methodId, paymentMethod, cardNumber, expiry, routingNumber, accountNumber);
        UnhandledActionsChangeNothing(store.state, m, "", "");
        store.Dispatch(SavePaymentMethod(m));
        saved := Some(m);
      }
      store.Dispatch(CompletePayment(transactionId, MethodLabel(paymentMethod), Some(downPayment), Some("Down Payment"), nowIso));
      paid := true;
      processing := false;
    }

    /**
     * `handleRemoveMethod`, with the answer to the confirmation dialog passed in: removing the
     * selected method clears the selection and switches to a new card.
     */
    method HandleRemoveMethod(methodId: string, confirmed: bool)
      modifies this, store
      ensures confirmed ==> store.state == Reduce(old(store.state), RemovePaymentMethod(methodId))
      ensures !confirmed ==> store.state == old(store.state)
      ensures confirmed && old(selectedSavedMethod) == Some(methodId) ==> selectedSavedMethod == None && useNewCard
      ensures !(confirmed && old(selectedSavedMethod) == Some(methodId)) ==>
        selectedSavedMethod == old(selectedSavedMethod) && useNewCard == old(useNewCard)
      ensures paymentMethod == old(paymentMethod) && saveCard == old(saveCard) && paid == old(paid)
      ensures processing == old(processing)
      ensures cardNumber == old(cardNumber) && expiry == old(expiry) && cvv == old(cvv)
      ensures routingNumber == old(routingNumber) && accountNumber == old(accountNumber)
    {
      if confirmed {
        store.Dispatch(RemovePaymentMethod(methodId));
        if selectedSavedMethod == Some(methodId) {
          selectedSavedMethod := None;
          useNewCard := true;
        }
      }
    }
  }

  // ---------------------------------------------------------------- properties

  /** The filter works piecewise, so the offered methods keep their stored order. */
  lemma {:induction false} SavedMethodsInOrder(a: seq<SavedMethod>, b: seq<SavedMethod>, kind: string)
    ensures SavedMethods(a + b, kind) == SavedMethods(a, kind) + SavedMethods(b, kind)
  {
    if a == [] {
      assert a + b == b;
    } else {
      assert (a + b)[1..] == a[1..] + b;
      SavedMethodsInOrder(a[1..], b, kind);
    }
  }

  /**
   * With saved methods of the chosen type and "new card" off, a selection is required; once one is
   * selected, the typed-in details are not checked at all.
   */
  lemma SelectionGuard(useNewCard: bool, selected: Option<string>, savedCount: nat, paymentMethod: string,
                       cardNumber: string, expiry: string, cvv: string, routingNumber: string, accountNumber: string)
    requires !useNewCard && savedCount > 0
    ensures NoSelection(selected) ==> SelectionMissing(useNewCard, selected, savedCount)
    ensures !NoSelection(selected) ==>
      !SelectionMissing(useNewCard, selected, savedCount) && !NewDetailsPath(useNewCard, savedCount)
  {
  }

  /**
   * On the new-details path a credit payment goes ahead exactly when card number, expiry and CVV
   * are filled in, and any other type exactly when routing and account numbers are.
   */
  lemma RequiredFields(paymentMethod: string, cardNumber: string, expiry: string, cvv: string,
                       routingNumber: string, accountNumber: string)
    ensures paymentMethod == "credit" ==>
      (!DetailsMissing(paymentMethod, cardNumber, expiry, cvv, routingNumber, accountNumber) <==>
         cardNumber != "" && expiry != "" && cvv != "")
    ensures paymentMethod != "credit" ==>
      (!DetailsMissing(paymentMethod, cardNumber, expiry, cvv, routingNumber, accountNumber) <==>
         routingNumber != "" && accountNumber != "")
  {
  }

  /** A card starting with 4 is Visa, with 5 Mastercard, and anything else (also an empty number) Card. */
  lemma BrandByFirstDigit(cardNumber: string)
    ensures Brand(cardNumber) == "Visa" <==> cardNumber != "" && cardNumber[0] == '4'
    ensures Brand(cardNumber) == "Mastercard" <==> cardNumber != "" && cardNumber[0] == '5'
    ensures Brand(cardNumber) == "Card" <==> cardNumber == "" || cardNumber[0] !in {'4', '5'}
  {
    if cardNumber != "" {
      assert StartsWith(cardNumber, "4") <==> cardNumber[0] == '4';
      assert StartsWith(cardNumber, "5") <==> cardNumber[0] == '5';
    }
  }

  /**
   * A saved card keeps at most its last four digits, a bank account is masked as four stars and
   * at most its last four digits, and the saved type follows the chosen one.
   */
  lemma SavedMethodIsMasked(id: string, paymentMethod: string, cardNumber: string, expiry: string,
                            routingNumber: string, accountNumber: string)
    ensures var m := NewMethod(id, paymentMethod, cardNumber, expiry, routingNumber, accountNumber);
      && m.id == id
      && (paymentMethod == "credit" ==>
            && m.kind == "credit" && m.details.CardDetails?
            && |m.details.cardLast4| <= 4 && EndsWith(cardNumber, m.details.cardLast4)
            && m.details.expiry == expiry && m.details.brand == Brand(cardNumber))
      && (paymentMethod != "credit" ==>
            && m.kind == "ach" && m.details.BankDetails?
            && |m.details.bankAccount| <= 8 && m.details.bankAccount[..4] == "****"
            && EndsWith(accountNumber, m.details.bankAccount[4..])
            && m.details.routingNumber == routingNumber)
  {
    var m := NewMethod(id, paymentMethod, cardNumber, expiry, routingNumber, accountNumber);
    if paymentMethod != "credit" {
      assert m.details.bankAccount[4..] == TakeLast(accountNumber, 4);
    }
  }

  /** The payment is labelled Credit Card for a credit payment and ACH for anything else. */
  lemma LabelFollowsType(paymentMethod: string)
    ensures MethodLabel(paymentMethod) == "Credit Card" <==> paymentMethod == "credit"
    ensures MethodLabel(paymentMethod) == "ACH" <==> paymentMethod != "credit"
  {
  }

  /**
   * A completed checkout marks the session payment completed with the label as its method and
   * appends one "Completed" record for the consultation's down payment.
   */
  lemma CheckoutCompletes(s: AppState, txn: string, paymentMethod: string, nowIso: string)
    ensures var r := Reduce(s, CompletePayment(txn, MethodLabel(paymentMethod), Some(s.consultation.downPayment),
                                               Some("Down Payment"), nowIso));
      && r.payment.completed && r.payment.payMethod == Some(MethodLabel(paymentMethod))
      && |r.paymentHistory| == |s.paymentHistory| + 1
      && r.paymentHistory[..|s.paymentHistory|] == s.paymentHistory
      && r.paymentHistory[|s.paymentHistory|].amount == s.consultation.downPayment
      && r.paymentHistory[|s.paymentHistory|].status == "Completed"
  {
    CompletePaymentRecord(s, txn, MethodLabel(paymentMethod), Some(s.consultation.downPayment), Some("Down Payment"), nowIso);
  }
}
