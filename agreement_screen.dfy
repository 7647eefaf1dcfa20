/**
 * The agreement screen: a list of agreements (demo ones, the session's own, and one opened from
 * the deal configurator), a status filter, and the finalize, sign and send handlers that update
 * both the store and the list.
 */
module AgreementScreen {
  import opened Wrappers
  import opened Text
  import opened Entities
  import opened RulesEngine
  import opened AppContext

  /** One agreement of the list. */
  datatype AgreementRow = AgreementRow(
    id: string,
    patientId: string,
    patientName: string,
    treatmentName: string,
    totalCost: real,
    downPayment: real,
    installments: int,
    status: string,
    finalized: bool,
    signed: bool,
    finalizedDate: Option<string>,
    signedDate: Option<string>,
    signatureData: Option<string>,
    sentForSignature: bool,
    sentDate: Option<string>)

  /** The edit a handler makes to the matching row; each carries the ISO time it stamps. */
  datatype RowEdit =
    | MarkFinalized(finalizedAt: string)
    | MarkSigned(data: string, signedAt: string)
    | MarkSent(sentAt: string)

  function ApplyEdit(a: AgreementRow, e: RowEdit): AgreementRow {
    match e
    case MarkFinalized(at) => a.(finalized := true, status := "Finalized", finalizedDate := Some(at))
    case MarkSigned(data, at) => a.(signed := true, status := "Signed", signedDate := Some(at), signatureData := Some(data))
    case MarkSent(at) => a.(sentForSignature := true, sentDate := Some(at))
  }

  /** `agreements.map(a => a.id === id ? edit(a) : a)`. */
  function EditWhere(rows: seq<AgreementRow>, id: string, e: RowEdit): (r: seq<AgreementRow>)
    ensures |r| == |rows|
  {
    seq(|rows|, k requires 0 <= k < |rows| => if rows[k].id == id then ApplyEdit(rows[k], e) else rows[k])
  }

  /** `selectedAgreement?.id || 'CURRENT'`: an absent selection or an empty id means the session agreement. */
  function TargetId(selected: Option<AgreementRow>): (id: string)
    ensures id != ""
    ensures selected.Some? && selected.value.id != "" ==> id == selected.value.id
    ensures !(selected.Some? && selected.value.id != "") ==> id == "CURRENT"
  {
    if selected.Some? && selected.value.id != "" then selected.value.id else "CURRENT"
  }

  function EditSelected(selected: Option<AgreementRow>, e: RowEdit): Option<AgreementRow> {
    if selected.Some? then Some(ApplyEdit(selected.value, e)) else None
  }

  /** The agreement built from the deal configurator's data, stamped with `Date.now()`. */
  function ConfiguratorAgreement(s: AppState, now: int): AgreementRow {
    AgreementRow("AGR-" + IntToString(now), TextField(s.currentPatient, "id"), TextField(s.currentPatient, "name"),
      s.consultation.treatmentName, s.consultation.totalCost, s.consultation.downPayment, s.consultation.installments,
      "Draft", false, false, None, None, None, false, None)
  }

  /** The session's own agreement: the CURRENT row or one the configurator created. */
  predicate IsSessionAgreement(a: AgreementRow) {
    a.id == "CURRENT" || StartsWith(a.id, "AGR-")
  }

  /**
   * The sent flag the screen derives from its selection: the store's flag for the session's own
   * agreement, the row's own flag for any other, and false with nothing selected.
   */
  function SentFlag(selected: Option<AgreementRow>, storeSent: bool): bool {
    match selected
    case None => false
    case Some(a) => if IsSessionAgreement(a) then storeSent else a.sentForSignature
  }

  /** The starting list: the demo agreements, then the session's own agreement once it is finalized. */
  function InitialAgreements(demo: seq<AgreementRow>, s: AppState, nowIso: string): (r: seq<AgreementRow>)
    ensures |r| == |demo| + (if s.agreement.finalized then 1 else 0)
    ensures r[..|demo|] == demo
    ensures s.agreement.finalized ==> r[|demo|].id == "CURRENT"
  {
    var a := s.agreement;
    var c := s.consultation;
    demo + (if a.finalized then
      [AgreementRow("CURRENT", TextField(s.currentPatient, "id"), TextField(s.currentPatient, "name"),
         c.treatmentName, c.totalCost, c.downPayment, c.installments,
         if a.signed then "Signed" else "Finalized", a.finalized, a.signed,
         Some(nowIso), if a.signed then Some(nowIso) else None, a.signatureData, false, None)]
    else [])
  }

  predicate HasId(rows: seq<AgreementRow>, id: string) {
    exists k :: 0 <= k < |rows| && rows[k].id == id
  }

  /** The configurator effect's list update: add to the front unless that id is already listed. */
  function InsertIfAbsent(rows: seq<AgreementRow>, a: AgreementRow): (r: seq<AgreementRow>)
    ensures HasId(r, a.id)
    ensures HasId(rows, a.id) ==> r == rows
    ensures !HasId(rows, a.id) ==> r == [a] + rows
  {
    if HasId(rows, a.id) then rows
    else
      var r := [a] + rows;
      assert r[0] == a;
      r
  }

  /** Whether the status filter keeps an agreement. */
  predicate Keeps(filter: string, a: AgreementRow) {
    if filter == "signed" then a.signed
    else if filter == "finalized" then a.finalized && !a.signed
    else if filter == "draft" then !a.finalized
    else true
  }

  /** The status step of `filteredAgreements`: keeps exactly the agreements the filter admits, in order. */
  function StatusFilter(rows: seq<AgreementRow>, filter: string): (r: seq<AgreementRow>)
    ensures |r| <= |rows|
    ensures forall a :: a in r ==> a in rows && Keeps(filter, a)
    ensures forall a :: a in rows && Keeps(filter, a) ==> a in r
  {
    if filter == "all" || rows == [] then rows
    else
      var rest := StatusFilter(rows[1..], filter);
      assert forall a :: a in rows ==> a == rows[0] || a in rows[1..];
      if Keeps(filter, rows[0]) then [rows[0]] + rest else rest
  }

  /**
   * The status filter keeps order, distributing over concatenation, and keeps each admitted
   * agreement as often as it is listed.
   */
  lemma StatusFilterInOrder(rows: seq<AgreementRow>, more: seq<AgreementRow>, filter: string)
    ensures StatusFilter(rows + more, filter) == StatusFilter(rows, filter) + StatusFilter(more, filter)
    ensures forall a :: multiset(StatusFilter(rows, filter))[a] == if Keeps(filter, a) then multiset(rows)[a] else 0
  {
    StatusFilterConcat(rows, more, filter);
    StatusFilterCounts(rows, filter);
  }

  lemma {:induction false} StatusFilterConcat(rows: seq<AgreementRow>, more: seq<AgreementRow>, filter: string)
    ensures StatusFilter(rows + more, filter) == StatusFilter(rows, filter) + StatusFilter(more, filter)
  {
    if rows == [] {
      assert rows + more == more;
    } else if filter != "all" {
      assert (rows + more)[0] == rows[0];
      assert (rows + more)[1..] == rows[1..] + more;
      StatusFilterConcat(rows[1..], more, filter);
    }
  }

  lemma {:induction false} StatusFilterCounts(rows: seq<AgreementRow>, filter: string)
    ensures forall a :: multiset(StatusFilter(rows, filter))[a] == if Keeps(filter, a) then multiset(rows)[a] else 0
  {
    if filter != "all" && rows != [] {
      StatusFilterCounts(rows[1..], filter);
      assert rows == [rows[0]] + rows[1..];
      assert multiset(rows) == multiset{rows[0]} + multiset(rows[1..]);
    }
  }

  class Screen {
    const store: Store
    var agreements: seq<AgreementRow>
    var selected: Option<AgreementRow>
    var viewMode: string
    var agreementSent: bool

    constructor (store: Store, demo: seq<AgreementRow>, nowIso: string)
      ensures this.store == store && agreements == InitialAgreements(demo, store.state, nowIso)
      ensures selected == None && viewMode == "list" && !agreementSent
    {
      this.store := store;
      agreements := InitialAgreements(demo, store.state, nowIso);
      selected := None;
      viewMode := "list";
      agreementSent := false;
    }

    /** The configurator effect: open the new agreement and list it unless it is already there. */
    method OpenFromConfigurator(now: int)
      modifies this
      ensures var a := ConfiguratorAgreement(store.state, now);
        && selected == Some(a) && viewMode == "detail"
        && agreements == InsertIfAbsent(old(agreements), a)
      ensures agreementSent == old(agreementSent)
    {
      var a := ConfiguratorAgreement(store.state, now);
      selected := Some(a);
      viewMode := "detail";
      if !HasId(agreements, a.id) {
        agreements := [a] + agreements;
      }
    }

    /** The effect that re-derives `agreementSent` whenever the selection or the store's flag changes. */
    method SyncAgreementSent()
      modifies this
      ensures agreementSent == SentFlag(selected, store.state.agreement.sentForSignature)
      ensures agreements == old(agreements) && selected == old(selected) && viewMode == old(viewMode)
    {
      if selected.Some? {
        var a := selected.value;
        var isCurrentAgreement := a.id == "CURRENT" || StartsWith(a.id, "AGR-");
        if isCurrentAgreement {
          agreementSent := store.state.agreement.sentForSignature;
        } else {
          agreementSent := a.sentForSignature;
        }
      } else {
        agreementSent := false;
      }
    }

    /** `handleFinalize`: nothing happens while the stored plan breaks a rule. */
    method HandleFinalize(nowIso: string)
      modifies this, store
      ensures var c := old(store.state.consultation);
        var passes := Violations(c.downPayment, c.installments, c.totalCost, old(store.state.rules)) == [];
        && (!passes ==> store.state == old(store.state) && agreements == old(agreements) && selected == old(selected))
        && (passes ==>
              && store.state == Reduce(old(store.state), FinalizeAgreement)
              && agreements == EditWhere(old(agreements), TargetId(old(selected)), MarkFinalized(nowIso))
              && selected == EditSelected(old(selected), MarkFinalized(nowIso)))
      ensures agreementSent == old(agreementSent) && viewMode == old(viewMode)
    {
      var c := store.state.consultation;
      var errors := ValidatePaymentPlan(c.downPayment, c.installments, c.totalCost, store.state.rules);
      if |errors| > 0 {
        return;
      }
      store.Dispatch(FinalizeAgreement);
      var agreementId := TargetId(selected);
      agreements := EditWhere(agreements, agreementId, MarkFinalized(nowIso));
      if selected.Some? {
        selected := Some(ApplyEdit(selected.value, MarkFinalized(nowIso)));
      }
    }

    /** `handleSign`, with the clock readings passed in; it checks neither finalization nor the rules. */
    method HandleSign(signatureData: string, now: int, nowIso: string)
      modifies this, store
      ensures store.state == Reduce(old(store.state), SignAgreement(signatureData, now))
      ensures agreements == EditWhere(old(agreements), TargetId(old(selected)), MarkSigned(signatureData, nowIso))
      ensures selected == EditSelected(old(selected), MarkSigned(signatureData, nowIso))
      ensures agreementSent == old(agreementSent) && viewMode == old(viewMode)
    {
      store.Dispatch(SignAgreement(signatureData, now));
      var agreementId := TargetId(selected);
      agreements := EditWhere(agreements, agreementId, MarkSigned(signatureData, nowIso));
      if selected.Some? {
        selected := Some(ApplyEdit(selected.value, MarkSigned(signatureData, nowIso)));
      }
    }

    /** `handleSendForSignature`; the confirmation alert is not modelled. */
    method HandleSendForSignature(nowIso: string)
      modifies this, store
      ensures store.state == Reduce(old(store.state), SendForSignature(nowIso))
      ensures agreementSent
      ensures agreements == EditWhere(old(agreements), TargetId(old(selected)), MarkSent(nowIso))
      ensures selected == EditSelected(old(selected), MarkSent(nowIso))
      ensures viewMode == old(viewMode)
    {
      store.Dispatch(SendForSignature(nowIso));
      agreementSent := true;
      var agreementId := TargetId(selected);
      var sentDate := nowIso;
      agreements := EditWhere(agreements, agreementId, MarkSent(sentDate));
      if selected.Some? {
        selected := Some(ApplyEdit(selected.value, MarkSent(sentDate)));
      }
    }
  }

  // ---------------------------------------------------------------- properties

  /**
   * Edits land only on the rows with the target id: every other row is unchanged and in place,
   * ids never change, and a row that matches gets exactly the flags its edit names.
   */
  lemma EditScope(rows: seq<AgreementRow>, id: string, e: RowEdit, k: int)
    requires 0 <= k < |rows|
    ensures var r := EditWhere(rows, id, e);
      && r[k].id == rows[k].id
      && (rows[k].id != id ==> r[k] == rows[k])
      && (rows[k].id == id && e.MarkFinalized? ==> r[k].finalized && r[k].status == "Finalized" && r[k].signed == rows[k].signed)
      && (rows[k].id == id && e.MarkSigned? ==>
            r[k].signed && r[k].status == "Signed" && r[k].signatureData == Some(e.data) && r[k].finalized == rows[k].finalized)
      && (rows[k].id == id && e.MarkSent? ==>
            r[k].sentForSignature && r[k] == rows[k].(sentForSignature := true, sentDate := Some(e.sentAt)))
  {
  }

  /** A list without the target id is left exactly as it was. */
  lemma EditAbsentIdChangesNothing(rows: seq<AgreementRow>, id: string, e: RowEdit)
    requires !HasId(rows, id)
    ensures EditWhere(rows, id, e) == rows
  {
    var r := EditWhere(rows, id, e);
    forall k | 0 <= k < |rows| ensures r[k] == rows[k] {
      EditScope(rows, id, e, k);
    }
  }

  /** Repeating an edit with the same stamps gives the same list. */
  lemma EditIdempotent(rows: seq<AgreementRow>, id: string, e: RowEdit)
    ensures EditWhere(EditWhere(rows, id, e), id, e) == EditWhere(rows, id, e)
  {
  }

  /** Signing an agreement that was never finalized still marks it signed and leaves it unfinalized. */
  lemma SignWithoutFinalize(a: AgreementRow, data: string, at: string)
    requires !a.finalized
    ensures ApplyEdit(a, MarkSigned(data, at)).signed && !ApplyEdit(a, MarkSigned(data, at)).finalized
    ensures Keeps("signed", ApplyEdit(a, MarkSigned(data, at))) && Keeps("draft", ApplyEdit(a, MarkSigned(data, at)))
  {
  }

  /** Any filter value other than the three named ones keeps the whole list. */
  lemma OtherFilterKeepsAll(rows: seq<AgreementRow>, filter: string)
    requires filter != "signed" && filter != "finalized" && filter != "draft"
    ensures StatusFilter(rows, filter) == rows
  {
    if filter != "all" && rows != [] {
      OtherFilterKeepsAll(rows[1..], filter);
      assert [rows[0]] + rows[1..] == rows;
    }
  }

  /**
   * Finalized is disjoint from the other two filters and together they cover every agreement;
   * signed and draft overlap exactly on the agreements signed without being finalized.
   */
  lemma {:induction false} StatusFiltersPartition(rows: seq<AgreementRow>)
    ensures |StatusFilter(rows, "signed")| + |StatusFilter(rows, "finalized")| + |StatusFilter(rows, "draft")|
            == |rows| + |StatusFilter(StatusFilter(rows, "signed"), "draft")|
  {
    if rows != [] {
      StatusFiltersPartition(rows[1..]);
      var a := rows[0];
      if a.signed {
        var s := StatusFilter(rows[1..], "signed");
        assert StatusFilter(rows, "signed") == [a] + s;
        assert StatusFilter([a] + s, "draft") == (if !a.finalized then [a] else []) + StatusFilter(s, "draft") by {
          assert ([a] + s)[1..] == s;
        }
      }
    }
  }

  /** On a list opened twice from the configurator with the same id, the second opening adds nothing. */
  lemma InsertIfAbsentIdempotent(rows: seq<AgreementRow>, a: AgreementRow)
    ensures InsertIfAbsent(InsertIfAbsent(rows, a), a) == InsertIfAbsent(rows, a)
    ensures |InsertIfAbsent(rows, a)| <= |rows| + 1
  {
  }

  /**
   * The store's sent flag decides the shown flag exactly for the session's own agreement, and an
   * agreement opened from the configurator is one: after it is opened the screen shows the store's
   * flag.
   */
  lemma SentFlagSources(a: AgreementRow, s: AppState, now: int, storeSent: bool)
    ensures SentFlag(Some(a), true) != SentFlag(Some(a), false) <==> IsSessionAgreement(a)
    ensures SentFlag(None, storeSent) == false
    ensures SentFlag(Some(ConfiguratorAgreement(s, now)), storeSent) == storeSent
  {
    var id := ConfiguratorAgreement(s, now).id;
    assert id[..|"AGR-"|] == "AGR-";
  }
}
