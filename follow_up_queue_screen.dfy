/**
 * The follow-up queue: the demo queue extended with the follow-ups stored in the app state, the
 * expandable rows, the sort header and the status and response filters.
 */
module FollowUpQueueScreen {
  import opened Wrappers
  import opened Text
  import opened Dict
  import opened Entities
  import opened AppContext

  datatype QueueItem = QueueItem(
    id: string,
    patientId: string,
    agreementId: string,
    patientName: string,
    treatmentName: string,
    status: string,
    lastContact: string,
    nextAction: string,
    responseState: string,
    dealValue: real)

  /** What the queue reads of an agreement; "" and 0 stand for missing fields. */
  datatype AgreementInfo = AgreementInfo(id: string, treatmentName: string, totalCost: real)

  /** `const [patientId, agreementId] = key.split('_')`; the second is undefined without a '_'. */
  function SplitKey(key: string): (string, Option<string>) {
    var parts := Split(key, '_');
    (parts[0], if |parts| >= 2 then Some(parts[1]) else None)
  }

  /** `agreements.find(a => a.id === id)`. */
  function FindAgreement(agreements: seq<AgreementInfo>, id: string): (r: Option<AgreementInfo>)
    ensures r.Some? ==> r.value in agreements && r.value.id == id
    ensures r.None? <==> forall k :: 0 <= k < |agreements| ==> agreements[k].id != id
  {
    if agreements == [] then None
    else if agreements[0].id == id then Some(agreements[0])
    else
      var r := FindAgreement(agreements[1..], id);
      assert forall k :: 1 <= k < |agreements| ==> agreements[k] == agreements[1..][k - 1];
      r
  }

  /** The agreement a follow-up refers to: a demo agreement with that id, else a stub for 'CURRENT'. */
  function ResolveAgreement(agreements: seq<AgreementInfo>, agreementId: Option<string>): Option<AgreementInfo> {
    if agreementId == None then None
    else
      var found := FindAgreement(agreements, agreementId.value);
      if found.Some? then found
      else if agreementId.value == "CURRENT" then Some(AgreementInfo("CURRENT", "", 0.0))
      else None
  }

  /** The patient: the first demo patient with that id, else the current patient (which always exists). */
  function ResolvePatient(patients: seq<Record>, current: Record, patientId: string): Record {
    if patients == [] then current
    else if TextField(patients[0], "id") == patientId then patients[0]
    else ResolvePatient(patients[1..], current, patientId)
  }

  predicate Listed(queue: seq<QueueItem>, patientId: string, agreementId: string) {
    exists k :: 0 <= k < |queue| && queue[k].patientId == patientId && queue[k].agreementId == agreementId
  }

  /** The queue row built from a stored follow-up. */
  function ItemFor(key: string, patientId: string, agreementId: string, patient: Record, agreement: AgreementInfo,
                   f: FollowUp, nowIso: string): QueueItem
    requires f.status.Some?
  {
    var comms := f.communications;
    QueueItem(
      "followup-" + key, patientId, agreementId,
      TextField(patient, "name"),
      if agreement.treatmentName != "" then agreement.treatmentName else "Treatment",
      Capitalize(f.status.value),
      if comms != [] && comms[|comms| - 1].date != "" then comms[|comms| - 1].date else nowIso,
      if f.timeline.Some? && f.timeline.value != [] && f.timeline.value[0].title != "" then f.timeline.value[0].title
      else "Follow-up needed",
      if comms != [] && comms[|comms| - 1].response != "" then "Responded" else "No response",
      agreement.totalCost)
  }

  /** The context shared by every step of the merge. */
  datatype Sources = Sources(agreements: seq<AgreementInfo>, patients: seq<Record>, current: Record, nowIso: string)

  /** One `forEach` step: append the follow-up's row when it has a status, resolves, and is not listed yet. */
  function MergeStep(queue: seq<QueueItem>, entry: (string, FollowUp), src: Sources): seq<QueueItem> {
    var (key, f) := entry;
    var (patientId, agreementId) := SplitKey(key);
    var agreement := ResolveAgreement(src.agreements, agreementId);
    var patient := ResolvePatient(src.patients, src.current, patientId);
    if agreement.Some? && f.status.Some? && f.status.value != "" && !Listed(queue, patientId, agreementId.value) then
      queue + [ItemFor(key, patientId, agreementId.value, patient, agreement.value, f, src.nowIso)]
    else queue
  }

  /** The merge of the first entries, one step per entry in order. */
  function MergeAll(queue: seq<QueueItem>, entries: seq<(string, FollowUp)>, src: Sources): seq<QueueItem>
    decreases |entries|
  {
    if entries == [] then queue
    else MergeStep(MergeAll(queue, entries[..|entries| - 1], src), entries[|entries| - 1], src)
  }

  /** The `queue` memo: copy the initial queue and push one row per admissible stored follow-up. */
  method MergeQueue(initial: seq<QueueItem>, followUps: Dict<FollowUp>, src: Sources) returns (queue: seq<QueueItem>)
    ensures queue == MergeAll(initial, followUps, src)
  {
    queue := initial;
    for k := 0 to |followUps|
      invariant queue == MergeAll(initial, followUps[..k], src)
    {
      assert followUps[..k + 1][..k] == followUps[..k];
      queue := MergeStep(queue, followUps[k], src);
    }
    assert followUps[..|followUps|] == followUps;
  }

  /** `toggleRow` on a copy of the set. */
  function Toggle(rows: set<string>, id: string): (r: set<string>)
    ensures forall x :: x != id ==> (x in r <==> x in rows)
    ensures id in r <==> id !in rows
  {
    if id in rows then rows - {id} else rows + {id}
  }

  /** The status and response filters: 'all' keeps everything, any other value keeps equal items. */
  predicate Shown(item: QueueItem, filterStatus: string, filterResponse: string) {
    (filterStatus == "all" || item.status == filterStatus) && (filterResponse == "all" || item.responseState == filterResponse)
  }

  function FilterQueue(queue: seq<QueueItem>, filterStatus: string, filterResponse: string): (r: seq<QueueItem>)
    ensures |r| <= |queue|
    ensures forall x :: x in r ==> x in queue && Shown(x, filterStatus, filterResponse)
    ensures forall x :: x in queue && Shown(x, filterStatus, filterResponse) ==> x in r
  {
    if queue == [] then []
    else
      var rest := FilterQueue(queue[1..], filterStatus, filterResponse);
      assert forall x :: x in queue ==> x == queue[0] || x in queue[1..];
      if Shown(queue[0], filterStatus, filterResponse) then [queue[0]] + rest else rest
  }

  /**
   * The filters keep order, distributing over concatenation, and keep each shown item as often as
   * it is queued.
   */
  lemma FilterQueueInOrder(queue: seq<QueueItem>, more: seq<QueueItem>, filterStatus: string, filterResponse: string)
    ensures FilterQueue(queue + more, filterStatus, filterResponse)
         == FilterQueue(queue, filterStatus, filterResponse) + FilterQueue(more, filterStatus, filterResponse)
    ensures forall x :: multiset(FilterQueue(queue, filterStatus, filterResponse))[x] ==
              if Shown(x, filterStatus, filterResponse) then multiset(queue)[x] else 0
  {
    FilterQueueConcat(queue, more, filterStatus, filterResponse);
    FilterQueueCounts(queue, filterStatus, filterResponse);
  }

  lemma {:induction false} FilterQueueConcat(queue: seq<QueueItem>, more: seq<QueueItem>, filterStatus: string, filterResponse: string)
    ensures FilterQueue(queue + more, filterStatus, filterResponse)
         == FilterQueue(queue, filterStatus, filterResponse) + FilterQueue(more, filterStatus, filterResponse)
  {
    if queue == [] {
      assert queue + more == more;
    } else {
      assert (queue + more)[0] == queue[0];
      assert (queue + more)[1..] == queue[1..] + more;
      FilterQueueConcat(queue[1..], more, filterStatus, filterResponse);
    }
  }

  lemma {:induction false} FilterQueueCounts(queue: seq<QueueItem>, filterStatus: string, filterResponse: string)
    ensures forall x :: multiset(FilterQueue(queue, filterStatus, filterResponse))[x] ==
              if Shown(x, filterStatus, filterResponse) then multiset(queue)[x] else 0
  {
    if queue != [] {
      FilterQueueCounts(queue[1..], filterStatus, filterResponse);
      assert queue == [queue[0]] + queue[1..];
      assert multiset(queue) == multiset{queue[0]} + multiset(queue[1..]);
    }
  }

  /** The interactive part of the screen: expanded rows and the sort header. */
  class QueueView {
    var expandedRows: set<string>
    var sortBy: string
    var sortOrder: string

    constructor ()
      ensures expandedRows == {} && sortBy == "lastContact" && sortOrder == "desc"
    {
      expandedRows := {};
      sortBy := "lastContact";
      sortOrder := "desc";
    }

    method ToggleRow(id: string)
      modifies this
      ensures expandedRows == Toggle(old(expandedRows), id)
      ensures sortBy == old(sortBy) && sortOrder == old(sortOrder)
    {
      var newExpanded := expandedRows;
      if id in newExpanded {
        newExpanded := newExpanded - {id};
      } else {
        newExpanded := newExpanded + {id};
      }
      expandedRows := newExpanded;
    }

    /** `handleSort`: the current column flips its order, another column starts descending. */
    method HandleSort(column: string)
      modifies this
      ensures old(sortBy) == column ==>
        sortBy == column && sortOrder == (if old(sortOrder) == "asc" then "desc" else "asc")
      ensures old(sortBy) != column ==> sortBy == column && sortOrder == "desc"
      ensures expandedRows == old(expandedRows)
    {
      if sortBy == column {
        sortOrder := if sortOrder == "asc" then "desc" else "asc";
      } else {
        sortBy := column;
        sortOrder := "desc";
      }
    }
  }

  // ---------------------------------------------------------------- properties

  /** Splitting at a first '_' peels off the text before it. */
  lemma SplitAtFirst(a: string, b: string)
    requires '_' !in a
    ensures Split(a + "_" + b, '_') == [a] + Split(b, '_')
  {
    var s := a + "_" + b;
    assert s[|a|] == '_';
    assert s[..|a|] == a;
    var i := IndexOf(s, '_');
    assert s[i] == '_';
    assert forall j :: 0 <= j < |a| ==> s[j] == a[j] && a[j] in a;
    assert i == |a|;
    assert s[i + 1..] == b;
  }

  /** The key written as `${patientId}_${agreementId}` splits back into the pair when neither id has a '_'. */
  lemma SplitKeyRoundTrip(patientId: string, agreementId: string)
    requires '_' !in patientId && '_' !in agreementId
    ensures SplitKey(FollowUpKey(patientId, agreementId)) == (patientId, Some(agreementId))
  {
    assert FollowUpKey(patientId, agreementId) == patientId + "_" + agreementId;
    SplitAtFirst(patientId, agreementId);
  }

  /**
   * With a '_' inside the patient id the split goes wrong: the key of "p_q" and "a" comes back as
   * the pair "p" and "q", so the row is looked up under the wrong patient and agreement.
   */
  lemma SplitKeyBreaksOnUnderscore(p: string, q: string, a: string)
    requires '_' !in p && '_' !in q && '_' !in a
    ensures SplitKey(FollowUpKey(p + "_" + q, a)) == (p, Some(q))
    ensures SplitKey(FollowUpKey(p + "_" + q, a)) != (p + "_" + q, Some(a))
  {
    var key := FollowUpKey(p + "_" + q, a);
    assert key == p + "_" + (q + "_" + a);
    SplitAtFirst(p, q + "_" + a);
    SplitAtFirst(q, a);
    assert |p + "_" + q| > |p|;
  }

  /** The initial queue stays in front, unchanged; at most one row per stored follow-up is appended. */
  lemma {:induction false} MergeKeepsPrefix(queue: seq<QueueItem>, entries: seq<(string, FollowUp)>, src: Sources)
    ensures var r := MergeAll(queue, entries, src);
      |queue| <= |r| <= |queue| + |entries| && r[..|queue|] == queue
  {
    if entries != [] {
      MergeKeepsPrefix(queue, entries[..|entries| - 1], src);
      var before := MergeAll(queue, entries[..|entries| - 1], src);
      var r := MergeAll(queue, entries, src);
      assert r == before || r == before + [r[|r| - 1]] by {
        assert r == MergeStep(before, entries[|entries| - 1], src);
      }
      if |r| > |before| {
        assert r[..|before|] == before;
        assert r[..|queue|] == before[..|queue|];
      }
    }
  }

  /** A row is appended exactly when the follow-up has a status, its agreement resolves and the pair is not listed. */
  lemma AppendConditions(queue: seq<QueueItem>, key: string, f: FollowUp, src: Sources)
    ensures var (patientId, agreementId) := SplitKey(key);
      var agreement := ResolveAgreement(src.agreements, agreementId);
      var r := MergeStep(queue, (key, f), src);
      && (|r| == |queue| + 1 <==>
            agreement.Some? && f.status.Some? && f.status.value != "" && !Listed(queue, patientId, agreementId.value))
      && (|r| == |queue| ==> r == queue)
      && (|r| != |queue| ==> r[..|queue|] == queue && r[|queue|].patientId == patientId)
  {
  }

  /** The pair looked up is the pair the row carries: a resolved agreement keeps the id it was found by. */
  lemma ResolvedAgreementKeepsId(agreements: seq<AgreementInfo>, agreementId: Option<string>)
    ensures var a := ResolveAgreement(agreements, agreementId);
      a.Some? ==> agreementId.Some? && a.value.id == agreementId.value
    ensures agreementId == Some("CURRENT") ==> ResolveAgreement(agreements, agreementId).Some?
  {
  }

  predicate NoDuplicatePairs(queue: seq<QueueItem>) {
    forall i, j :: 0 <= i < j < |queue| ==>
      !(queue[i].patientId == queue[j].patientId && queue[i].agreementId == queue[j].agreementId)
  }

  /** A queue without repeated (patient, agreement) pairs keeps that property through the merge. */
  lemma {:induction false} MergeKeepsPairsUnique(queue: seq<QueueItem>, entries: seq<(string, FollowUp)>, src: Sources)
    requires NoDuplicatePairs(queue)
    ensures NoDuplicatePairs(MergeAll(queue, entries, src))
  {
    if entries != [] {
      MergeKeepsPairsUnique(queue, entries[..|entries| - 1], src);
      var before := MergeAll(queue, entries[..|entries| - 1], src);
      var (key, f) := entries[|entries| - 1];
      var (patientId, agreementId) := SplitKey(key);
      ResolvedAgreementKeepsId(src.agreements, agreementId);
    }
  }

  /** The derived fields of an appended row: capitalised status, response state, and the defaults. */
  lemma DerivedFields(key: string, patientId: string, agreementId: string, patient: Record, agreement: AgreementInfo,
                      f: FollowUp, nowIso: string)
    requires f.status.Some? && f.status.value != ""
    ensures var item := ItemFor(key, patientId, agreementId, patient, agreement, f, nowIso);
      && item.status[0] == UpperChar(f.status.value[0]) && item.status[1..] == f.status.value[1..]
      && (item.responseState == "Responded" <==>
            f.communications != [] && f.communications[|f.communications| - 1].response != "")
      && (f.timeline == None || f.timeline == Some([]) ==> item.nextAction == "Follow-up needed")
      && (agreement.treatmentName == "" ==> item.treatmentName == "Treatment")
      && item.id == "followup-" + key
  {
  }

  /** Toggling the same row twice restores the set. */
  lemma ToggleTwice(rows: set<string>, id: string)
    ensures Toggle(Toggle(rows, id), id) == rows
  {
  }

  /** 'all' on both filters keeps the queue as it is. */
  lemma {:induction false} AllKeepsQueue(queue: seq<QueueItem>)
    ensures FilterQueue(queue, "all", "all") == queue
  {
    if queue != [] {
      AllKeepsQueue(queue[1..]);
      assert [queue[0]] + queue[1..] == queue;
    }
  }
}
