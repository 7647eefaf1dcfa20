/**
 * The financial ledger: the audit log with this session's entries put in front, the sorted lists
 * of distinct actions and users offered as filters, the search and filters, and the colour of an
 * action badge.
 */
module LedgerScreen {
  import opened Wrappers
  import opened Text
  import opened Entities
  import opened AppContext
  import opened Seqs

  datatype LedgerEntry = LedgerEntry(
    id: string, timestamp: string, user: string, action: string, patient: string, details: string, ipAddress: string)

  // ---------------------------------------------------------------- action colour

  /** `getActionColor`: the badge classes of the first keyword the action contains. */
  function ActionColor(action: string): (classes: string)
    ensures classes in {"bg-green-100 text-green-800", "bg-blue-100 text-blue-800", "bg-purple-100 text-purple-800",
                        "bg-yellow-100 text-yellow-800", "bg-gray-100 text-gray-800"}
    ensures classes == "bg-gray-100 text-gray-800" <==>
      !Contains(action, "Payment") && !Contains(action, "Signed") && !Contains(action, "Validation") && !Contains(action, "Modified")
  {
    if Contains(action, "Payment") then "bg-green-100 text-green-800"
    else if Contains(action, "Signed") then "bg-blue-100 text-blue-800"
    else if Contains(action, "Validation") then "bg-purple-100 text-purple-800"
    else if Contains(action, "Modified") then "bg-yellow-100 text-yellow-800"
    else "bg-gray-100 text-gray-800"
  }

  // ---------------------------------------------------------------- session entries

  /** A template-literal slot: `null` is printed as the text "null". */
  function OrNull(o: Option<string>): string {
    if o.Some? then o.value else "null"
  }

  /**
   * The entry for a finalized plan. `downPaymentText` is the JavaScript rendering of the down
   * payment, passed in; the time stamp likewise.
   */
  function ValidationEntry(s: AppState, nowIso: string, downPaymentText: string): LedgerEntry {
    LedgerEntry("current-1", nowIso, "System (DCE)", "Rule Validation", TextField(s.currentPatient, "name"),
      "Payment plan validated: $" + downPaymentText + " down, " + IntToString(s.consultation.installments) + " months",
      "System")
  }

  function SignatureEntry(s: AppState, nowIso: string): LedgerEntry {
    LedgerEntry("current-2", nowIso, TextField(s.currentPatient, "name"), "Agreement Signed",
      TextField(s.currentPatient, "name"), "Digital signature captured via DocuSign integration", "192.168.1.105")
  }

  function PaymentEntry(s: AppState, nowIso: string, downPaymentText: string): LedgerEntry {
    LedgerEntry("current-3", nowIso, "System (Stripe)", "Payment Processed", TextField(s.currentPatient, "name"),
      "Transaction: " + OrNull(s.payment.transactionId) + ", Amount: $" + downPaymentText
        + ", Method: " + OrNull(s.payment.payMethod),
      "System")
  }

  /** The session entries as they end up in the list: payment, signature, validation. */
  function SessionEntries(s: AppState, nowIso: string, downPaymentText: string): seq<LedgerEntry> {
    (if s.payment.completed then [PaymentEntry(s, nowIso, downPaymentText)] else [])
    + (if s.agreement.signed then [SignatureEntry(s, nowIso)] else [])
    + (if s.agreement.finalized then [ValidationEntry(s, nowIso, downPaymentText)] else [])
  }

  /** `allEntries`: the session entries in front of the audit log. */
  function AllEntries(log: seq<LedgerEntry>, s: AppState, nowIso: string, downPaymentText: string): seq<LedgerEntry> {
    SessionEntries(s, nowIso, downPaymentText) + log
  }

  /** The three flags that are set. */
  function SessionFlags(s: AppState): (n: nat)
    ensures n <= 3
  {
    (if s.agreement.finalized then 1 else 0) + (if s.agreement.signed then 1 else 0) + (if s.payment.completed then 1 else 0)
  }

  /** The `useMemo` body: a copy of the log, then one `unshift` per flag, validation first. */
  method AssembleEntries(log: seq<LedgerEntry>, s: AppState, nowIso: string, downPaymentText: string)
    returns (entries: seq<LedgerEntry>)
    ensures entries == AllEntries(log, s, nowIso, downPaymentText)
  {
    ghost var validated := if s.agreement.finalized then [ValidationEntry(s, nowIso, downPaymentText)] else [];
    ghost var signed := if s.agreement.signed then [SignatureEntry(s, nowIso)] else [];
    ghost var paid := if s.payment.completed then [PaymentEntry(s, nowIso, downPaymentText)] else [];
    entries := log;
    if s.agreement.finalized {
      entries := [ValidationEntry(s, nowIso, downPaymentText)] + entries;
    }
    assert entries == validated + log;
    if s.agreement.signed {
      entries := [SignatureEntry(s, nowIso)] + entries;
    }
    assert entries == signed + (validated + log);
    if s.payment.completed {
      entries := [PaymentEntry(s, nowIso, downPaymentText)] + entries;
    }
    assert entries == paid + (signed + (validated + log));
    Unshifted(paid, signed, validated, log);
  }

  lemma Unshifted(a: seq<LedgerEntry>, b: seq<LedgerEntry>, c: seq<LedgerEntry>, log: seq<LedgerEntry>)
    ensures a + (b + (c + log)) == a + b + c + log
  {
  }

  // ---------------------------------------------------------------- distinct sorted values

  /** The default `sort` order of strings: by character code, a proper prefix first. */
  predicate Below(a: string, b: string) {
    if a == [] then b != []
    else if b == [] then false
    else if a[0] != b[0] then a[0] < b[0]
    else Below(a[1..], b[1..])
  }

  /** Sorted with no value twice. */
  ghost predicate StrictlySorted(s: seq<string>) {
    forall i, j :: 0 <= i < j < |s| ==> Below(s[i], s[j])
  }

  /** A value put into its place in a strictly sorted list, unless it is already there. */
  function Insert(s: seq<string>, x: string): (r: seq<string>)
    requires StrictlySorted(s)
    ensures StrictlySorted(r)
    ensures forall y :: y in r <==> y in s || y == x
  {
    if s == [] then [x]
    else if x == s[0] then s
    else if Below(x, s[0]) then
      forall j | 0 <= j < |s| ensures Below(x, s[j]) {
        if j > 0 {
          BelowTransitive(x, s[0], s[j]);
        }
      }
      [x] + s
    else
      BelowTotal(x, s[0]);
      var rest := Insert(s[1..], x);
      assert forall y :: y in rest ==> Below(s[0], y);
      [s[0]] + rest
  }

  /** `Array.from(new Set(values)).sort()`. */
  function UniqueSorted(values: seq<string>): (r: seq<string>)
    ensures StrictlySorted(r)
    ensures forall y :: y in r <==> y in values
  {
    if values == [] then []
    else
      var init := values[..|values| - 1];
      assert values == init + [values[|values| - 1]];
      Insert(UniqueSorted(init), values[|values| - 1])
  }

  /** Some entry carries this action. */
  predicate HasAction(entries: seq<LedgerEntry>, a: string) {
    exists k :: 0 <= k < |entries| && entries[k].action == a
  }

  /** Some entry carries this user. */
  predicate HasUser(entries: seq<LedgerEntry>, u: string) {
    exists k :: 0 <= k < |entries| && entries[k].user == u
  }

  /** The actions, one per entry: exactly the actions that occur. */
  function Actions(entries: seq<LedgerEntry>): (r: seq<string>)
    ensures |r| == |entries| && forall a :: a in r <==> HasAction(entries, a)
  {
    var r := seq(|entries|, k requires 0 <= k < |entries| => entries[k].action);
    assert forall a :: HasAction(entries, a) ==> a in r by {
      forall a | HasAction(entries, a) ensures a in r {
        var k :| 0 <= k < |entries| && entries[k].action == a;
        assert r[k] == a;
      }
    }
    r
  }

  /** The users, one per entry: exactly the users that occur. */
  function Users(entries: seq<LedgerEntry>): (r: seq<string>)
    ensures |r| == |entries| && forall u :: u in r <==> HasUser(entries, u)
  {
    var r := seq(|entries|, k requires 0 <= k < |entries| => entries[k].user);
    assert forall u :: HasUser(entries, u) ==> u in r by {
      forall u | HasUser(entries, u) ensures u in r {
        var k :| 0 <= k < |entries| && entries[k].user == u;
        assert r[k] == u;
      }
    }
    r
  }

  /** `uniqueActions`. */
  function UniqueActions(entries: seq<LedgerEntry>): seq<string> {
    UniqueSorted(Actions(entries))
  }

  /** `uniqueUsers`. */
  function UniqueUsers(entries: seq<LedgerEntry>): seq<string> {
    UniqueSorted(Users(entries))
  }

  // ---------------------------------------------------------------- search and filters

  /** The search test for a lower-cased query; the id only counts when it is not empty. */
  predicate SearchHit(e: LedgerEntry, query: string) {
    || Contains(Lower(e.action), query)
    || Contains(Lower(e.user), query)
    || Contains(Lower(e.patient), query)
    || Contains(Lower(e.details), query)
    || Contains(Lower(e.ipAddress), query)
    || (e.id != "" && Contains(Lower(e.id), query))
  }

  /** The tests the search and the filters pass to `filter`. */
  function Hits(query: string): LedgerEntry -> bool { (e: LedgerEntry) => SearchHit(e, query) }
  function ActionIs(action: string): LedgerEntry -> bool { (e: LedgerEntry) => e.action == action }
  function UserIs(user: string): LedgerEntry -> bool { (e: LedgerEntry) => e.user == user }
  function PatientIs(patient: string): LedgerEntry -> bool { (e: LedgerEntry) => e.patient == patient }

  /** The search: applied when the query is not blank, with the lower-cased query. */
  function Searched(entries: seq<LedgerEntry>, searchQuery: string): seq<LedgerEntry> {
    WhereIf(entries, Trim(searchQuery) != "", Hits(Lower(searchQuery)))
  }

  /** The shown entries before sorting: search, then action, user and patient; "all" switches a filter off. */
  function Filtered(entries: seq<LedgerEntry>, searchQuery: string, filterAction: string,
                    filterUser: string, filterPatient: string): (shown: seq<LedgerEntry>)
    ensures |shown| <= |entries|
    ensures forall e :: e in shown ==> e in entries
  {
    var a := Searched(entries, searchQuery);
    var b := WhereIf(a, filterAction != "all", ActionIs(filterAction));
    var c := WhereIf(b, filterUser != "all", UserIs(filterUser));
    WhereIf(c, filterPatient != "all", PatientIs(filterPatient))
  }

  /** What the search and the three filters together ask of one entry. */
  predicate PassesFilters(e: LedgerEntry, searchQuery: string, filterAction: string,
                          filterUser: string, filterPatient: string) {
    && (Trim(searchQuery) != "" ==> SearchHit(e, Lower(searchQuery)))
    && (filterAction != "all" ==> e.action == filterAction)
    && (filterUser != "all" ==> e.user == filterUser)
    && (filterPatient != "all" ==> e.patient == filterPatient)
  }

  // ---------------------------------------------------------------- properties

  /** Badge colours are tried in the order Payment, Signed, Validation, Modified, then the default. */
  lemma ActionColorOrder(action: string)
    ensures ActionColor(action) == "bg-green-100 text-green-800" <==> Contains(action, "Payment")
    ensures ActionColor(action) == "bg-blue-100 text-blue-800" <==>
      !Contains(action, "Payment") && Contains(action, "Signed")
    ensures ActionColor(action) == "bg-purple-100 text-purple-800" <==>
      !Contains(action, "Payment") && !Contains(action, "Signed") && Contains(action, "Validation")
    ensures ActionColor(action) == "bg-yellow-100 text-yellow-800" <==>
      !Contains(action, "Payment") && !Contains(action, "Signed") && !Contains(action, "Validation")
      && Contains(action, "Modified")
    ensures ActionColor(action) == "bg-gray-100 text-gray-800" <==>
      !Contains(action, "Payment") && !Contains(action, "Signed") && !Contains(action, "Validation")
      && !Contains(action, "Modified")
  {
  }

  /** The ledger holds the audit log and one entry per set flag. */
  lemma EntryCount(log: seq<LedgerEntry>, s: AppState, nowIso: string, downPaymentText: string)
    ensures |AllEntries(log, s, nowIso, downPaymentText)| == |log| + SessionFlags(s)
  {
  }

  /**
   * The session entries come first, payment before signature before validation, and the audit log
   * follows unchanged.
   */
  lemma EntryOrder(log: seq<LedgerEntry>, s: AppState, nowIso: string, downPaymentText: string)
    ensures var all := AllEntries(log, s, nowIso, downPaymentText);
      var n := SessionFlags(s);
      && all[n..] == log
      && (s.payment.completed ==> all[0] == PaymentEntry(s, nowIso, downPaymentText))
      && (s.agreement.signed ==>
            all[if s.payment.completed then 1 else 0] == SignatureEntry(s, nowIso))
      && (s.agreement.finalized ==> all[n - 1] == ValidationEntry(s, nowIso, downPaymentText))
  {
    var all := AllEntries(log, s, nowIso, downPaymentText);
    assert |SessionEntries(s, nowIso, downPaymentText)| == SessionFlags(s);
  }

  lemma {:induction false} BelowIrreflexive(a: string)
    ensures !Below(a, a)
  {
    if a != [] {
      BelowIrreflexive(a[1..]);
    }
  }

  lemma {:induction false} BelowTransitive(a: string, b: string, c: string)
    requires Below(a, b) && Below(b, c)
    ensures Below(a, c)
  {
    if a != [] && b != [] && c != [] && a[0] == b[0] && b[0] == c[0] {
      BelowTransitive(a[1..], b[1..], c[1..]);
    }
  }

  /** Two different strings are ordered one way or the other. */
  lemma {:induction false} BelowTotal(a: string, b: string)
    requires a != b
    ensures Below(a, b) || Below(b, a)
  {
    if a != [] && b != [] && a[0] == b[0] {
      assert a == [a[0]] + a[1..] && b == [b[0]] + b[1..];
      BelowTotal(a[1..], b[1..]);
    }
  }

  lemma {:induction false} BelowAsymmetric(a: string, b: string)
    requires Below(a, b)
    ensures !Below(b, a)
  {
    if a != [] && b != [] && a[0] == b[0] {
      BelowAsymmetric(a[1..], b[1..]);
    }
  }

  /** Strictly sorted lists holding the same values are the same list. */
  lemma {:induction false} SortedListsAgree(a: seq<string>, b: seq<string>)
    requires StrictlySorted(a) && StrictlySorted(b)
    requires forall y :: y in a <==> y in b
    ensures a == b
  {
    if a != [] && b != [] {
      assert a[0] == b[0] by {
        if a[0] != b[0] {
          assert a[0] in a && b[0] in b;
          var ia :| 0 <= ia < |b| && b[ia] == a[0];
          var ib :| 0 <= ib < |a| && a[ib] == b[0];
          assert ia > 0 && ib > 0;
          assert Below(b[0], a[0]) && Below(a[0], b[0]);
          BelowAsymmetric(a[0], b[0]);
        }
      }
      forall y ensures y in a[1..] <==> y in b[1..] {
        TailMembers(a, y);
        TailMembers(b, y);
      }
      SortedListsAgree(a[1..], b[1..]);
      assert a == [a[0]] + a[1..] && b == [b[0]] + b[1..];
    } else if a != [] {
      HasMember(a);
    } else if b != [] {
      HasMember(b);
    }
  }

  lemma HasMember(s: seq<string>)
    requires s != []
    ensures exists y :: y in s
  {
    assert s[0] in s;
  }

  /** In a strictly sorted list, the values after the first are the others. */
  lemma TailMembers(s: seq<string>, y: string)
    requires StrictlySorted(s) && s != []
    ensures y in s[1..] <==> y in s && y != s[0]
  {
    if y in s[1..] {
      var k :| 1 <= k < |s| && s[k] == y;
      assert Below(s[0], s[k]);
      BelowIrreflexive(s[0]);
    }
    if y in s && y != s[0] {
      var k :| 0 <= k < |s| && s[k] == y;
      assert s[1..][k - 1] == y;
    }
  }

  /**
   * The action and user filter lists hold the values found in the entries, sorted, each once; the
   * list depends only on which values occur, not on their order or repetition.
   */
  lemma UniqueListsExact(entries: seq<LedgerEntry>, other: seq<LedgerEntry>)
    ensures var r := UniqueActions(entries);
      && StrictlySorted(r)
      && (forall i, j :: 0 <= i < j < |r| ==> r[i] != r[j])
      && forall a :: a in r <==> exists k :: 0 <= k < |entries| && entries[k].action == a
    ensures var r := UniqueUsers(entries);
      && StrictlySorted(r)
      && (forall i, j :: 0 <= i < j < |r| ==> r[i] != r[j])
      && forall u :: u in r <==> exists k :: 0 <= k < |entries| && entries[k].user == u
    ensures (forall a :: a in Actions(entries) <==> a in Actions(other)) ==> UniqueActions(entries) == UniqueActions(other)
    ensures (forall u :: u in Users(entries) <==> u in Users(other)) ==> UniqueUsers(entries) == UniqueUsers(other)
  {
    var ra, ru := UniqueActions(entries), UniqueUsers(entries);
    forall i, j | 0 <= i < j < |ra| ensures ra[i] != ra[j] {
      BelowIrreflexive(ra[i]);
    }
    forall i, j | 0 <= i < j < |ru| ensures ru[i] != ru[j] {
      BelowIrreflexive(ru[i]);
    }
    forall a ensures a in Actions(entries) <==> exists k :: 0 <= k < |entries| && entries[k].action == a {
      if a in Actions(entries) {
        var k :| 0 <= k < |entries| && Actions(entries)[k] == a;
      }
    }
    forall u ensures u in Users(entries) <==> exists k :: 0 <= k < |entries| && entries[k].user == u {
      if u in Users(entries) {
        var k :| 0 <= k < |entries| && Users(entries)[k] == u;
      }
    }
    if forall a :: a in Actions(entries) <==> a in Actions(other) {
      SortedListsAgree(ra, UniqueActions(other));
    }
    if forall u :: u in Users(entries) <==> u in Users(other) {
      SortedListsAgree(ru, UniqueUsers(other));
    }
  }

  /**
   * A shown entry is one of the ledger that passes the search (when the query is not blank) and
   * equals each chosen action, user and patient exactly; every such entry is shown, as often as it
   * is in the ledger, and filtering a longer ledger filters each part, so the order is kept.
   */
  lemma FilteredMeaning(entries: seq<LedgerEntry>, searchQuery: string, filterAction: string,
                        filterUser: string, filterPatient: string)
    ensures var shown := Filtered(entries, searchQuery, filterAction, filterUser, filterPatient);
      && |shown| <= |entries|
      && forall e :: e in shown <==>
           && e in entries
           && (Trim(searchQuery) != "" ==> SearchHit(e, Lower(searchQuery)))
           && (filterAction != "all" ==> e.action == filterAction)
           && (filterUser != "all" ==> e.user == filterUser)
           && (filterPatient != "all" ==> e.patient == filterPatient)
    ensures var shown := Filtered(entries, searchQuery, filterAction, filterUser, filterPatient);
      && (forall e :: multiset(shown)[e] ==
           if PassesFilters(e, searchQuery, filterAction, filterUser, filterPatient) then multiset(entries)[e] else 0)
      && (forall more :: Filtered(entries + more, searchQuery, filterAction, filterUser, filterPatient)
           == shown + Filtered(more, searchQuery, filterAction, filterUser, filterPatient))
  {
    FilteredCounts(entries, searchQuery, filterAction, filterUser, filterPatient);
    forall more: seq<LedgerEntry>
      ensures Filtered(entries + more, searchQuery, filterAction, filterUser, filterPatient)
           == Filtered(entries, searchQuery, filterAction, filterUser, filterPatient)
              + Filtered(more, searchQuery, filterAction, filterUser, filterPatient)
    {
      FilteredConcat(entries, more, searchQuery, filterAction, filterUser, filterPatient);
    }
  }

  lemma FilteredCounts(entries: seq<LedgerEntry>, searchQuery: string, filterAction: string,
                       filterUser: string, filterPatient: string)
    ensures var shown := Filtered(entries, searchQuery, filterAction, filterUser, filterPatient);
      forall e :: multiset(shown)[e] ==
        if PassesFilters(e, searchQuery, filterAction, filterUser, filterPatient) then multiset(entries)[e] else 0
  {
    var a := Searched(entries, searchQuery);
    var b := WhereIf(a, filterAction != "all", ActionIs(filterAction));
    var c := WhereIf(b, filterUser != "all", UserIs(filterUser));
    var shown := WhereIf(c, filterPatient != "all", PatientIs(filterPatient));
    WhereIfFacts(entries, [], Trim(searchQuery) != "", Hits(Lower(searchQuery)));
    WhereIfFacts(a, [], filterAction != "all", ActionIs(filterAction));
    WhereIfFacts(b, [], filterUser != "all", UserIs(filterUser));
    WhereIfFacts(c, [], filterPatient != "all", PatientIs(filterPatient));
    forall e
      ensures multiset(shown)[e] ==
        if PassesFilters(e, searchQuery, filterAction, filterUser, filterPatient) then multiset(entries)[e] else 0
    {
      assert Hits(Lower(searchQuery))(e) == SearchHit(e, Lower(searchQuery));
      assert ActionIs(filterAction)(e) == (e.action == filterAction);
      assert UserIs(filterUser)(e) == (e.user == filterUser);
      assert PatientIs(filterPatient)(e) == (e.patient == filterPatient);
    }
  }

  lemma FilteredConcat(xs: seq<LedgerEntry>, ys: seq<LedgerEntry>, searchQuery: string, filterAction: string,
                       filterUser: string, filterPatient: string)
    ensures Filtered(xs + ys, searchQuery, filterAction, filterUser, filterPatient)
         == Filtered(xs, searchQuery, filterAction, filterUser, filterPatient)
            + Filtered(ys, searchQuery, filterAction, filterUser, filterPatient)
  {
    var a1, a2 := Searched(xs, searchQuery), Searched(ys, searchQuery);
    var b1, b2 := WhereIf(a1, filterAction != "all", ActionIs(filterAction)), WhereIf(a2, filterAction != "all", ActionIs(filterAction));
    var c1, c2 := WhereIf(b1, filterUser != "all", UserIs(filterUser)), WhereIf(b2, filterUser != "all", UserIs(filterUser));
    WhereIfFacts(xs, ys, Trim(searchQuery) != "", Hits(Lower(searchQuery)));
    WhereIfFacts(a1, a2, filterAction != "all", ActionIs(filterAction));
    WhereIfFacts(b1, b2, filterUser != "all", UserIs(filterUser));
    WhereIfFacts(c1, c2, filterPatient != "all", PatientIs(filterPatient));
  }

  /** The search lower-cases query and fields: queries alike up to case find the same entries. */
  lemma SearchIgnoresCase(entries: seq<LedgerEntry>, q1: string, q2: string)
    requires Lower(q1) == Lower(q2)
    ensures Searched(entries, q1) == Searched(entries, q2)
  {
    BlankLower(q1);
    BlankLower(q2);
    TrimEmptyIffBlank(q1);
    TrimEmptyIffBlank(q2);
  }

  /** An entry whose action contains the query, in any letter case, is found. */
  lemma ActionMatchIsFound(entries: seq<LedgerEntry>, e: LedgerEntry, searchQuery: string)
    requires e in entries && Contains(Lower(e.action), Lower(searchQuery))
    ensures e in Searched(entries, searchQuery)
  {
  }
}
