/**
 * The follow-up classifier: the patient's status read off the last message exchanged, the
 * follow-up sequence chosen for that status, and the three-step timeline of each sequence.
 */
module FollowUpScreen {
  import opened Text
  import opened Entities

  const SignedWords: seq<string> := ["signed", "agree", "yes"]
  const PaidWords: seq<string> := ["paid", "payment"]
  const HesitantWords: seq<string> := ["think", "time", "consider", "interested", "maybe"]
  const ThinkingWords: seq<string> := ["think", "time", "consider"]

  function Last(comms: seq<Communication>): Communication
    requires comms != []
  {
    comms[|comms| - 1]
  }

  /** `determineStatusFromCommunication`. */
  function DetermineStatus(comms: seq<Communication>): (status: string)
    ensures status in {"signed", "paid", "observation", "consultation"}
    ensures comms == [] ==> status == "consultation"
  {
    if comms == [] then "consultation"
    else
      var last := Last(comms);
      var r := Lower(last.response);
      if last.response != "" && (Contains(r, "signed") || Contains(r, "agree") || Contains(r, "yes")) then "signed"
      else if last.response != "" && (Contains(r, "paid") || Contains(r, "payment")) then "paid"
      else if last.response != "" && (Contains(r, "think") || Contains(r, "time") || Contains(r, "consider")) then "observation"
      else if last.response != "" && (Contains(r, "interested") || Contains(r, "maybe")) then "observation"
      else if last.direction == "outbound" && last.response == "" then "observation"
      else "consultation"
  }

  /** The number of outbound messages that got no response. */
  function UnansweredOutbound(comms: seq<Communication>): (n: nat)
    ensures n <= |comms|
  {
    if comms == [] then 0
    else UnansweredOutbound(comms[..|comms| - 1])
         + (if Last(comms).direction == "outbound" && Last(comms).response == "" then 1 else 0)
  }

  /** `determineSequenceFromStatus`. */
  function DetermineSequence(status: string, comms: seq<Communication>): (sequence: string)
    ensures sequence == "" <==> status == ""
    ensures status != "" ==> sequence in {"gentle-14-day", "aggressive-3-day", "standard-7-day"}
  {
    if status == "" then ""
    else if status == "signed" || status == "paid" then "gentle-14-day"
    else if status == "observation" then
      if comms != [] && Last(comms).response != "" &&
         (Contains(Lower(Last(comms).response), "think") || Contains(Lower(Last(comms).response), "time")
          || Contains(Lower(Last(comms).response), "consider"))
      then "gentle-14-day"
      else if UnansweredOutbound(comms) >= 2 then "aggressive-3-day"
      else "standard-7-day"
    else if status == "consultation" then
      if |comms| > 0 then "standard-7-day" else "aggressive-3-day"
    else "standard-7-day"
  }

  function Step(title: string, description: string, date: string, completed: bool, active: bool): TimelineStep {
    TimelineStep(title, description, date, completed, active)
  }

  const StandardTimeline: seq<TimelineStep> := [
    Step("Day 1: Initial SMS", "SMS sent to patient with treatment reminder and payment options", "Today", true, false),
    Step("Day 3: Reminder", "Follow-up reminder sent via SMS and email", "In 2 days", false, true),
    Step("Day 7: Final Follow-up", "Final follow-up call scheduled with treatment coordinator", "In 6 days", false, false)]

  const AggressiveTimeline: seq<TimelineStep> := [
    Step("Day 1: Initial Contact", "SMS and email sent immediately", "Today", true, false),
    Step("Day 2: Follow-up Call", "Phone call to discuss any concerns", "Tomorrow", false, true),
    Step("Day 3: Final Push", "Final reminder with special offer if applicable", "In 2 days", false, false)]

  const GentleTimeline: seq<TimelineStep> := [
    Step("Day 1: Initial Contact", "Gentle email introduction", "Today", true, false),
    Step("Day 7: Check-in", "Friendly reminder email", "In 6 days", false, false),
    Step("Day 14: Final Follow-up", "Final check-in call", "In 13 days", false, false)]

  /** `generateTimeline`: the named sequence's timeline, the standard one for any other key. */
  function GenerateTimeline(sequence: string): (t: seq<TimelineStep>)
    ensures |t| == 3 && t[0].completed && t[0].date == "Today"
  {
    if sequence == "standard-7-day" then StandardTimeline
    else if sequence == "aggressive-3-day" then AggressiveTimeline
    else if sequence == "gentle-14-day" then GentleTimeline
    else StandardTimeline
  }

  // ---------------------------------------------------------------- properties

  /** The classifier always answers with one of the four statuses; no history means consultation. */
  lemma StatusRange(comms: seq<Communication>)
    ensures DetermineStatus(comms) in {"signed", "paid", "observation", "consultation"}
    ensures comms == [] ==> DetermineStatus(comms) == "consultation"
  {
  }

  /** Only the last message counts: any history ending in the same message gets the same status. */
  lemma LastMessageDecides(earlier: seq<Communication>, other: seq<Communication>, c: Communication)
    ensures DetermineStatus(earlier + [c]) == DetermineStatus(other + [c]) == DetermineStatus([c])
  {
    assert Last(earlier + [c]) == c;
    assert Last(other + [c]) == c;
  }

  /**
   * The response keywords are tried in the order signed, paid, hesitant: each status is given
   * exactly when its group matches and no earlier group does.
   */
  lemma ResponseKeywordOrder(comms: seq<Communication>)
    requires comms != [] && Last(comms).response != ""
    ensures var r := Lower(Last(comms).response);
      && (DetermineStatus(comms) == "signed" <==> AnyOf(r, SignedWords))
      && (DetermineStatus(comms) == "paid" <==> !AnyOf(r, SignedWords) && AnyOf(r, PaidWords))
      && (DetermineStatus(comms) == "observation" <==>
            !AnyOf(r, SignedWords) && !AnyOf(r, PaidWords) && AnyOf(r, HesitantWords))
      && (DetermineStatus(comms) == "consultation" <==>
            !AnyOf(r, SignedWords) && !AnyOf(r, PaidWords) && !AnyOf(r, HesitantWords))
  {
    var r := Lower(Last(comms).response);
    SignedGroup(r);
    PaidGroup(r);
    HesitantGroup(r);
  }

  lemma SignedGroup(r: string)
    ensures AnyOf(r, SignedWords) <==> Contains(r, "signed") || Contains(r, "agree") || Contains(r, "yes")
  {
    assert SignedWords[0] == "signed" && SignedWords[1] == "agree" && SignedWords[2] == "yes";
    if AnyOf(r, SignedWords) {
      var k :| 0 <= k < |SignedWords| && Contains(r, SignedWords[k]);
    }
  }

  lemma PaidGroup(r: string)
    ensures AnyOf(r, PaidWords) <==> Contains(r, "paid") || Contains(r, "payment")
  {
    assert PaidWords[0] == "paid" && PaidWords[1] == "payment";
    if AnyOf(r, PaidWords) {
      var k :| 0 <= k < |PaidWords| && Contains(r, PaidWords[k]);
    }
  }

  lemma HesitantGroup(r: string)
    ensures AnyOf(r, HesitantWords) <==>
      Contains(r, "think") || Contains(r, "time") || Contains(r, "consider") || Contains(r, "interested") || Contains(r, "maybe")
  {
    assert HesitantWords[0] == "think" && HesitantWords[1] == "time" && HesitantWords[2] == "consider";
    assert HesitantWords[3] == "interested" && HesitantWords[4] == "maybe";
    if AnyOf(r, HesitantWords) {
      var k :| 0 <= k < |HesitantWords| && Contains(r, HesitantWords[k]);
    }
  }

  lemma ThinkingGroup(r: string)
    ensures AnyOf(r, ThinkingWords) <==> Contains(r, "think") || Contains(r, "time") || Contains(r, "consider")
  {
    assert ThinkingWords[0] == "think" && ThinkingWords[1] == "time" && ThinkingWords[2] == "consider";
    if AnyOf(r, ThinkingWords) {
      var k :| 0 <= k < |ThinkingWords| && Contains(r, ThinkingWords[k]);
    }
  }

  /** Without a response, an outbound last message means observation and an inbound one consultation. */
  lemma NoResponseFallback(comms: seq<Communication>)
    requires comms != [] && Last(comms).response == ""
    ensures DetermineStatus(comms) == (if Last(comms).direction == "outbound" then "observation" else "consultation")
  {
  }

  /** The sequence is "" exactly for an empty status, and otherwise one of the three timelines' keys. */
  lemma SequenceRange(status: string, comms: seq<Communication>)
    ensures DetermineSequence(status, comms) == "" <==> status == ""
    ensures status != "" ==> DetermineSequence(status, comms) in {"gentle-14-day", "aggressive-3-day", "standard-7-day"}
    ensures status == "signed" || status == "paid" ==> DetermineSequence(status, comms) == "gentle-14-day"
    ensures status == "consultation" ==>
      DetermineSequence(status, comms) == (if comms == [] then "aggressive-3-day" else "standard-7-day")
    ensures status !in {"", "signed", "paid", "observation", "consultation"} ==>
      DetermineSequence(status, comms) == "standard-7-day"
  {
  }

  /**
   * Observation: a thinking response on the last message means gentle; otherwise two or more
   * unanswered outbound messages mean aggressive; otherwise standard.
   */
  lemma ObservationSequence(comms: seq<Communication>)
    ensures var thinking := comms != [] && Last(comms).response != "" && AnyOf(Lower(Last(comms).response), ThinkingWords);
      DetermineSequence("observation", comms) ==
        if thinking then "gentle-14-day"
        else if UnansweredOutbound(comms) >= 2 then "aggressive-3-day"
        else "standard-7-day"
  {
    if comms != [] {
      ThinkingGroup(Lower(Last(comms).response));
    }
  }

  /** The count is zero exactly when no outbound message is left without a response. */
  lemma {:induction false} UnansweredCountsOutboundOnly(comms: seq<Communication>)
    ensures UnansweredOutbound(comms) == 0 <==>
      forall k :: 0 <= k < |comms| ==> !(comms[k].direction == "outbound" && comms[k].response == "")
  {
    if comms != [] {
      var init := comms[..|comms| - 1];
      UnansweredCountsOutboundOnly(init);
      assert forall k :: 0 <= k < |init| ==> init[k] == comms[k];
    }
  }

  /**
   * Every timeline has three steps of which only the first is completed. The middle step is the
   * active one, except in the gentle timeline, where no step is active. Unknown keys get the
   * standard timeline.
   */
  lemma TimelineShape(sequence: string)
    ensures var t := GenerateTimeline(sequence);
      && |t| == 3 && t[0].completed && !t[1].completed && !t[2].completed
      && !t[0].active && !t[2].active
      && (t[1].active <==> sequence != "gentle-14-day")
    ensures sequence !in {"aggressive-3-day", "gentle-14-day"} ==> GenerateTimeline(sequence) == StandardTimeline
  {
  }

  /** Classifying and then choosing a sequence always yields a key with its own timeline. */
  lemma ClassifiedSequenceHasTimeline(comms: seq<Communication>)
    ensures var s := DetermineSequence(DetermineStatus(comms), comms);
      && s in {"gentle-14-day", "aggressive-3-day", "standard-7-day"}
      && (s == "gentle-14-day" ==> GenerateTimeline(s) == GentleTimeline)
      && (s == "aggressive-3-day" ==> GenerateTimeline(s) == AggressiveTimeline)
  {
    StatusRange(comms);
    SequenceRange(DetermineStatus(comms), comms);
  }
}
