/**
 * The payment history screen: the list it starts from, the search and the three filters, the
 * completed total and status counts, and the grouping of the shown payments by patient name.
 */
module PaymentScreen {
  import opened Wrappers
  import opened Text
  import opened Dict
  import opened Entities
  import opened AppContext
  import opened Seqs

  // ---------------------------------------------------------------- the list

  /**
   * The payment of this session, shown only once it is completed and carries a non-empty
   * transaction id; the mount time is passed in.
   */
  function SessionPayment(s: AppState, nowIso: string): (r: Option<PaymentRecord>)
    ensures r.Some? <==> s.payment.completed && s.payment.transactionId.Some? && s.payment.transactionId.value != ""
  {
    if s.payment.completed && s.payment.transactionId.Some? && s.payment.transactionId.value != "" then
      var txn := s.payment.transactionId.value;
      Some(PaymentRecord(txn, nowIso, s.consultation.downPayment, "Down Payment", "Completed", txn,
        s.payment.payMethod.GetOr(""), TextField(s.currentPatient, "id"), TextField(s.currentPatient, "name")))
    else None
  }

  /** The screen's starting list: the demo history, then this session's payment when there is one. */
  function InitialPayments(history: seq<PaymentRecord>, s: AppState, nowIso: string): seq<PaymentRecord> {
    var session := SessionPayment(s, nowIso);
    history + (if session.Some? then [session.value] else [])
  }

  // ---------------------------------------------------------------- filters

  /** The tests the filters pass to `filter`: one field equal to the chosen value. */
  function StatusIs(status: string): PaymentRecord -> bool { (p: PaymentRecord) => p.status == status }
  function PatientIdIs(patientId: string): PaymentRecord -> bool { (p: PaymentRecord) => p.patientId == patientId }
  function TypeIs(kind: string): PaymentRecord -> bool { (p: PaymentRecord) => p.kind == kind }
  function NameIs(name: string): PaymentRecord -> bool { (p: PaymentRecord) => p.patientName == name }

  function ByStatus(ps: seq<PaymentRecord>, status: string): seq<PaymentRecord> {
    Where(ps, StatusIs(status))
  }

  function ByPatientId(ps: seq<PaymentRecord>, patientId: string): seq<PaymentRecord> {
    Where(ps, PatientIdIs(patientId))
  }

  function ByType(ps: seq<PaymentRecord>, kind: string): seq<PaymentRecord> {
    Where(ps, TypeIs(kind))
  }

  function ByPatientName(ps: seq<PaymentRecord>, name: string): seq<PaymentRecord> {
    Where(ps, NameIs(name))
  }

  /** `demoPatients.find(p => p.id === id)`: the first directory entry whose id is that text. */
  function FindPatient(directory: seq<Record>, id: string): (r: Option<Record>)
    ensures r.Some? ==> r.value in directory && Get(r.value, "id") == Some(Str(id))
    ensures r.None? ==> forall q :: q in directory ==> Get(q, "id") != Some(Str(id))
  {
    if directory == [] then None
    else if Get(directory[0], "id") == Some(Str(id)) then Some(directory[0])
    else FindPatient(directory[1..], id)
  }

  /** A non-empty contact field of the payment's patient that contains the query. */
  predicate ContactHit(patient: Option<Record>, field: string, query: string) {
    patient.Some? && TextField(patient.value, field) != "" && Contains(Lower(TextField(patient.value, field)), query)
  }

  /** The search test for a lower-cased query. */
  predicate SearchHit(p: PaymentRecord, query: string, directory: seq<Record>) {
    var patient := FindPatient(directory, p.patientId);
    || Contains(Lower(p.patientName), query)
    || Contains(Lower(p.transactionId), query)
    || ContactHit(patient, "email", query)
    || ContactHit(patient, "phone", query)
    || Contains(Lower(p.kind), query)
  }

  /** The search: applied when the query is not blank, with the lower-cased and untrimmed query. */
  function Searched(ps: seq<PaymentRecord>, searchQuery: string, directory: seq<Record>): seq<PaymentRecord> {
    WhereIf(ps, Trim(searchQuery) != "", Hits(Lower(searchQuery), directory))
  }

  /** The search test as a function value. */
  function Hits(query: string, directory: seq<Record>): PaymentRecord -> bool {
    (p: PaymentRecord) => SearchHit(p, query, directory)
  }

  /** What the search and the three filters together ask of one payment. */
  predicate PassesFilters(p: PaymentRecord, searchQuery: string, filterStatus: string,
                          filterPatient: string, filterType: string, directory: seq<Record>) {
    && (Trim(searchQuery) != "" ==> SearchHit(p, Lower(searchQuery), directory))
    && (filterStatus != "all" ==> p.status == filterStatus)
    && (filterPatient != "all" ==> p.patientId == filterPatient)
    && (filterType != "all" ==> p.kind == filterType)
  }

  /**
   * The shown list before sorting: search, then status, patient and type, where "all" switches a
   * filter off.
   */
  function Filtered(payments: seq<PaymentRecord>, searchQuery: string, filterStatus: string,
                    filterPatient: string, filterType: string, directory: seq<Record>): (shown: seq<PaymentRecord>)
    ensures |shown| <= |payments|
    ensures forall p :: p in shown ==> p in payments
  {
    var a := Searched(payments, searchQuery, directory);
    var b := WhereIf(a, filterStatus != "all", StatusIs(filterStatus));
    var c := WhereIf(b, filterPatient != "all", PatientIdIs(filterPatient));
    WhereIf(c, filterType != "all", TypeIs(filterType))
  }

  // ---------------------------------------------------------------- totals

  /** A payment's share of a total: its amount when completed, 0 otherwise. */
  function Due(p: PaymentRecord): real {
    if p.status == "Completed" then p.amount else 0.0
  }

  /** `ps.reduce((sum, p) => sum + (p.status === 'Completed' ? p.amount : 0), 0)`. */
  function CompletedTotal(ps: seq<PaymentRecord>): real {
    if ps == [] then 0.0 else CompletedTotal(ps[..|ps| - 1]) + Due(ps[|ps| - 1])
  }

  /** The sum of the amounts, whatever the status. */
  function AmountSum(ps: seq<PaymentRecord>): real {
    if ps == [] then 0.0 else AmountSum(ps[..|ps| - 1]) + ps[|ps| - 1].amount
  }

  // ---------------------------------------------------------------- grouping

  /** What the grouping loop has built after the given payments. */
  function Grouped(ps: seq<PaymentRecord>): Dict<seq<PaymentRecord>> {
    if ps == [] then [] else Push(Grouped(ps[..|ps| - 1]), ps[|ps| - 1])
  }

  /** One turn of the loop: the payment joins the end of its patient's group, new or not. */
  function Push(groups: Dict<seq<PaymentRecord>>, p: PaymentRecord): Dict<seq<PaymentRecord>> {
    Put(groups, p.patientName, Get(groups, p.patientName).GetOr([]) + [p])
  }

  /** The patient names of the payments, each once, in order of first appearance. */
  function Names(ps: seq<PaymentRecord>): (ns: seq<string>)
    ensures forall n :: n in ns <==> exists p :: p in ps && p.patientName == n
  {
    if ps == [] then []
    else
      var init := ps[..|ps| - 1];
      var last := ps[|ps| - 1];
      assert ps == init + [last];
      var ns := Names(init);
      if last.patientName in ns then ns else ns + [last.patientName]
  }

  /** `groupedPayments`: one "All Payments" group, or the groups by patient name. */
  function Groups(shown: seq<PaymentRecord>, groupByPatient: bool): Dict<seq<PaymentRecord>> {
    if groupByPatient then Grouped(shown) else [("All Payments", shown)]
  }

  /** The group totals of the named groups, added up. */
  function GroupTotals(groups: Dict<seq<PaymentRecord>>, names: seq<string>): (total: real)
    ensures (forall k :: 0 <= k < |names| ==> Get(groups, names[k]).None?) ==> total == 0.0
  {
    if names == [] then 0.0
    else GroupTotals(groups, names[..|names| - 1]) + CompletedTotal(Get(groups, names[|names| - 1]).GetOr([]))
  }

  /** Each name at most once. */
  ghost predicate Distinct(ns: seq<string>) {
    forall i, j :: 0 <= i < j < |ns| ==> ns[i] != ns[j]
  }

  /** The `forEach` that builds the groups: a new name gets an empty list, then the payment is pushed. */
  method GroupByPatient(shown: seq<PaymentRecord>) returns (grouped: Dict<seq<PaymentRecord>>)
    ensures grouped == Grouped(shown)
    ensures Keys(grouped) == Names(shown)
    ensures forall n :: n in Keys(grouped) ==> Get(grouped, n) == Some(ByPatientName(shown, n))
  {
    grouped := [];
    var i := 0;
    while i < |shown|
      invariant 0 <= i <= |shown|
      invariant grouped == Grouped(shown[..i])
    {
      var payment := shown[i];
      var name := payment.patientName;
      ghost var before := grouped;
      if Get(grouped, name).None? {
        grouped := Put(grouped, name, []);
      }
      grouped := Put(grouped, name, Get(grouped, name).value + [payment]);
      TurnIsPush(before, payment);
      GroupedStep(shown, i);
      i := i + 1;
    }
    assert shown[..|shown|] == shown;
    GroupedMeaning(shown);
  }

  // ---------------------------------------------------------------- properties

  /** The two writes of one loop turn leave what `Push` describes. */
  lemma TurnIsPush(before: Dict<seq<PaymentRecord>>, p: PaymentRecord)
    ensures var name := p.patientName;
      var mid := if Get(before, name).None? then Put(before, name, []) else before;
      Put(mid, name, Get(mid, name).value + [p]) == Push(before, p)
  {
    var name := p.patientName;
    if Get(before, name).None? {
      PutTwice(before, name, [], [] + [p]);
    }
  }

  lemma GroupedStep(ps: seq<PaymentRecord>, i: nat)
    requires i < |ps|
    ensures Grouped(ps[..i + 1]) == Push(Grouped(ps[..i]), ps[i])
  {
    assert ps[..i + 1][..i] == ps[..i];
  }

  /** The session payment, when shown, comes last and carries the consultation's down payment. */
  lemma SessionPaymentLast(history: seq<PaymentRecord>, s: AppState, nowIso: string)
    ensures var ps := InitialPayments(history, s, nowIso);
      && ps[..|history|] == history
      && (SessionPayment(s, nowIso).None? ==> ps == history)
      && (SessionPayment(s, nowIso).Some? ==>
            |ps| == |history| + 1 && ps[|history|].amount == s.consultation.downPayment
            && ps[|history|].status == "Completed" && ps[|history|].kind == "Down Payment"
            && ps[|history|].id == ps[|history|].transactionId == s.payment.transactionId.value)
  {
  }

  /** Filtering keeps the order: a payment appended to the input is appended to the output or dropped. */
  lemma StatusSnoc(ps: seq<PaymentRecord>, p: PaymentRecord, status: string)
    ensures ByStatus(ps + [p], status) == ByStatus(ps, status) + (if p.status == status then [p] else [])
  {
    assert (ps + [p])[..|ps|] == ps;
  }

  lemma NameSnoc(ps: seq<PaymentRecord>, p: PaymentRecord, name: string)
    ensures ByPatientName(ps + [p], name) == ByPatientName(ps, name) + (if p.patientName == name then [p] else [])
  {
    assert (ps + [p])[..|ps|] == ps;
  }

  /**
   * Each filter keeps exactly the payments whose field equals the chosen value, each as often as
   * it is listed, and filtering a longer list filters each part, so the kept payments stay in order.
   */
  lemma FiltersExact(ps: seq<PaymentRecord>, value: string)
    ensures forall p :: p in ByStatus(ps, value) <==> p in ps && p.status == value
    ensures forall p :: p in ByPatientId(ps, value) <==> p in ps && p.patientId == value
    ensures forall p :: p in ByType(ps, value) <==> p in ps && p.kind == value
    ensures forall p :: p in ByPatientName(ps, value) <==> p in ps && p.patientName == value
    ensures forall p :: multiset(ByStatus(ps, value))[p] == if p.status == value then multiset(ps)[p] else 0
    ensures forall p :: multiset(ByPatientId(ps, value))[p] == if p.patientId == value then multiset(ps)[p] else 0
    ensures forall p :: multiset(ByType(ps, value))[p] == if p.kind == value then multiset(ps)[p] else 0
    ensures forall p :: multiset(ByPatientName(ps, value))[p] == if p.patientName == value then multiset(ps)[p] else 0
    ensures forall more :: ByStatus(ps + more, value) == ByStatus(ps, value) + ByStatus(more, value)
    ensures forall more :: ByPatientId(ps + more, value) == ByPatientId(ps, value) + ByPatientId(more, value)
    ensures forall more :: ByType(ps + more, value) == ByType(ps, value) + ByType(more, value)
    ensures forall more :: ByPatientName(ps + more, value) == ByPatientName(ps, value) + ByPatientName(more, value)
  {
    WhereCounts(ps, StatusIs(value));
    WhereCounts(ps, PatientIdIs(value));
    WhereCounts(ps, TypeIs(value));
    WhereCounts(ps, NameIs(value));
    forall more: seq<PaymentRecord>
      ensures ByStatus(ps + more, value) == ByStatus(ps, value) + ByStatus(more, value)
      ensures ByPatientId(ps + more, value) == ByPatientId(ps, value) + ByPatientId(more, value)
      ensures ByType(ps + more, value) == ByType(ps, value) + ByType(more, value)
      ensures ByPatientName(ps + more, value) == ByPatientName(ps, value) + ByPatientName(more, value)
    {
      WhereConcat(ps, more, StatusIs(value));
      WhereConcat(ps, more, PatientIdIs(value));
      WhereConcat(ps, more, TypeIs(value));
      WhereConcat(ps, more, NameIs(value));
    }
  }

  /**
   * A shown payment is one of the list that passes the search (when the query is not blank) and
   * every filter that is not "all"; every such payment is shown.
   */
  lemma FilteredMeaning(payments: seq<PaymentRecord>, searchQuery: string, filterStatus: string,
                        filterPatient: string, filterType: string, directory: seq<Record>)
    ensures var shown := Filtered(payments, searchQuery, filterStatus, filterPatient, filterType, directory);
      && |shown| <= |payments|
      && (forall p :: p in shown <==>
           && p in payments
           && (Trim(searchQuery) != "" ==> SearchHit(p, Lower(searchQuery), directory))
           && (filterStatus != "all" ==> p.status == filterStatus)
           && (filterPatient != "all" ==> p.patientId == filterPatient)
           && (filterType != "all" ==> p.kind == filterType))
      && (forall p :: multiset(shown)[p] ==
           if PassesFilters(p, searchQuery, filterStatus, filterPatient, filterType, directory) then multiset(payments)[p] else 0)
      && (forall more :: Filtered(payments + more, searchQuery, filterStatus, filterPatient, filterType, directory)
           == shown + Filtered(more, searchQuery, filterStatus, filterPatient, filterType, directory))
  {
    FilteredCounts(payments, searchQuery, filterStatus, filterPatient, filterType, directory);
    forall more: seq<PaymentRecord>
      ensures Filtered(payments + more, searchQuery, filterStatus, filterPatient, filterType, directory)
           == Filtered(payments, searchQuery, filterStatus, filterPatient, filterType, directory)
              + Filtered(more, searchQuery, filterStatus, filterPatient, filterType, directory)
    {
      FilteredConcat(payments, more, searchQuery, filterStatus, filterPatient, filterType, directory);
    }
  }

  lemma FilteredCounts(payments: seq<PaymentRecord>, searchQuery: string, filterStatus: string,
                       filterPatient: string, filterType: string, directory: seq<Record>)
    ensures var shown := Filtered(payments, searchQuery, filterStatus, filterPatient, filterType, directory);
      forall p :: multiset(shown)[p] ==
        if PassesFilters(p, searchQuery, filterStatus, filterPatient, filterType, directory) then multiset(payments)[p] else 0
  {
    var a := Searched(payments, searchQuery, directory);
    var b := WhereIf(a, filterStatus != "all", StatusIs(filterStatus));
    var c := WhereIf(b, filterPatient != "all", PatientIdIs(filterPatient));
    WhereIfFacts(payments, [], Trim(searchQuery) != "", Hits(Lower(searchQuery), directory));
    WhereIfFacts(a, [], filterStatus != "all", StatusIs(filterStatus));
    WhereIfFacts(b, [], filterPatient != "all", PatientIdIs(filterPatient));
    WhereIfFacts(c, [], filterType != "all", TypeIs(filterType));
    var shown := WhereIf(c, filterType != "all", TypeIs(filterType));
    forall p
      ensures multiset(shown)[p] ==
        if PassesFilters(p, searchQuery, filterStatus, filterPatient, filterType, directory) then multiset(payments)[p] else 0
    {
      assert Hits(Lower(searchQuery), directory)(p) == SearchHit(p, Lower(searchQuery), directory);
      assert StatusIs(filterStatus)(p) == (p.status == filterStatus);
      assert PatientIdIs(filterPatient)(p) == (p.patientId == filterPatient);
      assert TypeIs(filterType)(p) == (p.kind == filterType);
    }
  }

  lemma FilteredConcat(xs: seq<PaymentRecord>, ys: seq<PaymentRecord>, searchQuery: string, filterStatus: string,
                       filterPatient: string, filterType: string, directory: seq<Record>)
    ensures Filtered(xs + ys, searchQuery, filterStatus, filterPatient, filterType, directory)
         == Filtered(xs, searchQuery, filterStatus, filterPatient, filterType, directory)
            + Filtered(ys, searchQuery, filterStatus, filterPatient, filterType, directory)
  {
    var a1, a2 := Searched(xs, searchQuery, directory), Searched(ys, searchQuery, directory);
    var b1, b2 := WhereIf(a1, filterStatus != "all", StatusIs(filterStatus)), WhereIf(a2, filterStatus != "all", StatusIs(filterStatus));
    var c1, c2 := WhereIf(b1, filterPatient != "all", PatientIdIs(filterPatient)), WhereIf(b2, filterPatient != "all", PatientIdIs(filterPatient));
    WhereIfFacts(xs, ys, Trim(searchQuery) != "", Hits(Lower(searchQuery), directory));
    WhereIfFacts(a1, a2, filterStatus != "all", StatusIs(filterStatus));
    WhereIfFacts(b1, b2, filterPatient != "all", PatientIdIs(filterPatient));
    WhereIfFacts(c1, c2, filterType != "all", TypeIs(filterType));
  }

  /** With every filter at "all" and a blank query, the whole list is shown. */
  lemma NoFilterShowsAll(payments: seq<PaymentRecord>, searchQuery: string, directory: seq<Record>)
    requires Blank(searchQuery)
    ensures Filtered(payments, searchQuery, "all", "all", "all", directory) == payments
  {
    TrimEmptyIffBlank(searchQuery);
  }

  /** The search ignores letter case: queries spelled alike up to case give the same list. */
  lemma SearchIgnoresCase(ps: seq<PaymentRecord>, q1: string, q2: string, directory: seq<Record>)
    requires Lower(q1) == Lower(q2)
    ensures Searched(ps, q1, directory) == Searched(ps, q2, directory)
  {
    BlankLower(q1);
    BlankLower(q2);
    TrimEmptyIffBlank(q1);
    TrimEmptyIffBlank(q2);
  }

  /** A payment whose patient name contains the query, in any letter case, passes the search. */
  lemma NameMatchIsFound(ps: seq<PaymentRecord>, p: PaymentRecord, searchQuery: string, directory: seq<Record>)
    requires p in ps && Contains(Lower(p.patientName), Lower(searchQuery))
    ensures p in Searched(ps, searchQuery, directory)
  {
  }

  /** The completed total adds up exactly the amounts of the completed payments. */
  lemma {:induction false} TotalCountsCompletedOnly(ps: seq<PaymentRecord>)
    ensures CompletedTotal(ps) == AmountSum(ByStatus(ps, "Completed"))
  {
    if ps != [] {
      var init, last := ps[..|ps| - 1], ps[|ps| - 1];
      assert ps == init + [last];
      TotalCountsCompletedOnly(init);
      StatusSnoc(init, last, "Completed");
      TotalSnoc(init, last);
      var c := ByStatus(init, "Completed");
      if last.status == "Completed" {
        AmountSumSnoc(c, last);
        assert ByStatus(ps, "Completed") == c + [last];
      } else {
        assert ByStatus(ps, "Completed") == c;
      }
    }
  }

  lemma TotalSnoc(ps: seq<PaymentRecord>, p: PaymentRecord)
    ensures CompletedTotal(ps + [p]) == CompletedTotal(ps) + Due(p)
  {
    assert (ps + [p])[..|ps|] == ps;
  }

  lemma AmountSumSnoc(ps: seq<PaymentRecord>, p: PaymentRecord)
    ensures AmountSum(ps + [p]) == AmountSum(ps) + p.amount
  {
    assert (ps + [p])[..|ps|] == ps;
  }

  /** The completed, pending and failed counts never exceed the number of shown payments. */
  lemma {:induction false} StatusCountsBounded(ps: seq<PaymentRecord>)
    ensures |ByStatus(ps, "Completed")| + |ByStatus(ps, "Pending")| + |ByStatus(ps, "Failed")| <= |ps|
  {
    if ps != [] {
      var init, last := ps[..|ps| - 1], ps[|ps| - 1];
      assert ps == init + [last];
      StatusCountsBounded(init);
      StatusSnoc(init, last, "Completed");
      StatusSnoc(init, last, "Pending");
      StatusSnoc(init, last, "Failed");
    }
  }

  /** A name not yet seen starts a group; groups keep only their own name's payments, in order. */
  lemma GroupedMeaning(ps: seq<PaymentRecord>)
    ensures Keys(Grouped(ps)) == Names(ps)
    ensures forall n :: Get(Grouped(ps), n) == if n in Names(ps) then Some(ByPatientName(ps, n)) else None
  {
    GroupedKeys(ps);
    forall n ensures Get(Grouped(ps), n) == if n in Names(ps) then Some(ByPatientName(ps, n)) else None {
      GroupedAt(ps, n);
    }
  }

  lemma {:induction false} GroupedKeys(ps: seq<PaymentRecord>)
    ensures Keys(Grouped(ps)) == Names(ps)
  {
    if ps != [] {
      GroupedKeys(ps[..|ps| - 1]);
    }
  }

  lemma {:induction false} GroupedAt(ps: seq<PaymentRecord>, n: string)
    ensures Get(Grouped(ps), n) == if n in Names(ps) then Some(ByPatientName(ps, n)) else None
  {
    if ps != [] {
      var init, last := ps[..|ps| - 1], ps[|ps| - 1];
      assert ps == init + [last];
      var g := Grouped(init);
      var name := last.patientName;
      var v := Get(g, name).GetOr([]) + [last];
      assert Grouped(ps) == Put(g, name, v);
      PutGet(g, name, v, n);
      GroupedAt(init, n);
      NameSnoc(init, last, n);
      NamesSnoc(init, last);
      if n == name {
        if n in Names(init) {
          assert v == ByPatientName(init, n) + [last];
        } else {
          NoneOfName(init, n);
          assert v == [last];
        }
        assert Get(Grouped(ps), n) == Some(v);
        assert ByPatientName(ps, n) == v;
        assert n in Names(ps);
      } else {
        assert Get(Grouped(ps), n) == Get(g, n);
        assert ByPatientName(ps, n) == ByPatientName(init, n);
        assert n in Names(ps) <==> n in Names(init);
      }
    }
  }

  lemma NamesSnoc(ps: seq<PaymentRecord>, p: PaymentRecord)
    ensures Names(ps + [p]) == if p.patientName in Names(ps) then Names(ps) else Names(ps) + [p.patientName]
  {
    assert (ps + [p])[..|ps|] == ps;
  }

  /** No payment of the name means an empty group. */
  lemma NoneOfName(ps: seq<PaymentRecord>, n: string)
    requires n !in Names(ps)
    ensures ByPatientName(ps, n) == []
  {
  }

  /** The names are distinct, so no patient gets two groups. */
  lemma {:induction false} NamesDistinct(ps: seq<PaymentRecord>)
    ensures Distinct(Names(ps))
  {
    if ps != [] {
      NamesDistinct(ps[..|ps| - 1]);
    }
  }

  /** Every shown payment lies in exactly one group: the one of its patient's name. */
  lemma EachPaymentInOneGroup(shown: seq<PaymentRecord>, groupByPatient: bool, p: PaymentRecord)
    requires p in shown
    ensures var g := Groups(shown, groupByPatient);
      var home := if groupByPatient then p.patientName else "All Payments";
      && home in Keys(g)
      && forall n :: n in Keys(g) ==> (p in Get(g, n).value <==> n == home)
  {
    if groupByPatient {
      GroupedMeaning(shown);
    } else {
      assert Keys([("All Payments", shown)]) == ["All Payments"];
    }
  }

  /** The group totals of a fixed set of names grow by a payment's share when its name is among them. */
  lemma {:induction false} GroupTotalsSnoc(names: seq<string>, ps: seq<PaymentRecord>, p: PaymentRecord)
    requires Distinct(names)
    ensures SumByName(names, ps + [p]) == SumByName(names, ps) + (if p.patientName in names then Due(p) else 0.0)
  {
    if names != [] {
      var init, m := names[..|names| - 1], names[|names| - 1];
      assert names == init + [m];
      assert Distinct(init) by {
        assert forall i :: 0 <= i < |init| ==> init[i] == names[i];
      }
      GroupTotalsSnoc(init, ps, p);
      NameSnoc(ps, p, m);
      var share := if p.patientName in init then Due(p) else 0.0;
      assert SumByName(init, ps + [p]) == SumByName(init, ps) + share;
      if p.patientName == m {
        TotalSnoc(ByPatientName(ps, m), p);
        assert p.patientName !in init;
        assert CompletedTotal(ByPatientName(ps + [p], m)) == CompletedTotal(ByPatientName(ps, m)) + Due(p);
      } else {
        assert ByPatientName(ps, m) + [] == ByPatientName(ps, m);
      }
      assert p.patientName in names <==> p.patientName in init || p.patientName == m;
    }
  }

  /** The completed totals of the payments of each name. */
  function SumByName(names: seq<string>, ps: seq<PaymentRecord>): real {
    if names == [] then 0.0
    else SumByName(names[..|names| - 1], ps) + CompletedTotal(ByPatientName(ps, names[|names| - 1]))
  }

  /** Over distinct names that cover every payment, the per-name totals add up to the whole total. */
  lemma {:induction false} SumByNameCovers(names: seq<string>, ps: seq<PaymentRecord>)
    requires Distinct(names)
    requires forall p :: p in ps ==> p.patientName in names
    ensures SumByName(names, ps) == CompletedTotal(ps)
  {
    if ps == [] {
      EmptyByName(names);
    } else {
      var init, last := ps[..|ps| - 1], ps[|ps| - 1];
      assert ps == init + [last];
      SumByNameCovers(names, init);
      GroupTotalsSnoc(names, init, last);
    }
  }

  lemma {:induction false} EmptyByName(names: seq<string>)
    ensures SumByName(names, []) == 0.0
  {
    if names != [] {
      EmptyByName(names[..|names| - 1]);
    }
  }

  /** Looking up the groups of a list by name gives the per-name totals. */
  lemma {:induction false} GroupTotalsAreByName(ps: seq<PaymentRecord>, names: seq<string>)
    requires forall n :: n in names ==> n in Names(ps)
    ensures GroupTotals(Grouped(ps), names) == SumByName(names, ps)
  {
    if names != [] {
      GroupedMeaning(ps);
      GroupTotalsAreByName(ps, names[..|names| - 1]);
    }
  }

  /** The group totals shown on the page add up to the completed total, grouped or not. */
  lemma GroupTotalsAddUp(shown: seq<PaymentRecord>, groupByPatient: bool)
    ensures var g := Groups(shown, groupByPatient);
      GroupTotals(g, Keys(g)) == CompletedTotal(shown)
  {
    var g := Groups(shown, groupByPatient);
    if groupByPatient {
      GroupedMeaning(shown);
      NamesDistinct(shown);
      GroupTotalsAreByName(shown, Names(shown));
      SumByNameCovers(Names(shown), shown);
    } else {
      assert Keys(g) == ["All Payments"];
      assert Keys(g)[..0] == [];
    }
  }
}
