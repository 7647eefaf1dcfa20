/**
 * The patient chat: the canned clinic reply chosen by keyword, the message list that each send
 * extends by the patient's message and one reply, and the relative time shown on a message.
 */
module PatientChat {
  import opened Text

  datatype ChatMessage = ChatMessage(id: string, sender: string, senderName: string, message: string, timestamp: string)

  const PaymentWords: seq<string> := ["payment", "pay", "cost"]
  const ScheduleWords: seq<string> := ["appointment", "schedule", "visit"]
  const TreatmentWords: seq<string> := ["treatment", "braces", "invisalign"]
  const InsuranceWords: seq<string> := ["insurance", "coverage"]
  const GreetingWords: seq<string> := ["hello", "hi", "help"]
  const ThanksWords: seq<string> := ["thank", "thanks"]

  const PaymentReply := "I'd be happy to help with payment questions. You can view your payment plan details in the Payment section. Would you like me to explain any specific part of your payment plan?"
  const ScheduleReply := "To schedule an appointment, please call our office at (555) 123-4567 or reply with your preferred dates and times, and I'll help coordinate with our scheduling team."
  const TreatmentReply := "Great question! Your treatment plan details are available in your Dashboard. If you have specific questions about the treatment process, I can connect you with our clinical team."
  const InsuranceReply := "For insurance questions, please provide your insurance information and I can help check your coverage. You can also update your insurance details in your account settings."
  const GreetingReply := "Hello! I'm here to help. You can ask me about your treatment plan, payments, appointments, or any other questions you have."
  const ThanksReply := "You're welcome! Is there anything else I can help you with today?"
  const DefaultReply := "Thank you for your message. I'll review your question and get back to you shortly. In the meantime, you can find most information in your Dashboard or Payment sections."

  /** The replies in the order their keyword groups are tried; the last one answers anything else. */
  const Replies: seq<string> := [PaymentReply, ScheduleReply, TreatmentReply, InsuranceReply, GreetingReply, ThanksReply, DefaultReply]

  /** One of the seven canned replies. */
  predicate IsReply(text: string) {
    text in Replies
  }

  /** `getClinicResponse`. */
  function ClinicResponse(patientMessage: string): (reply: string)
    ensures IsReply(reply)
  {
    var message := Lower(patientMessage);
    if Contains(message, "payment") || Contains(message, "pay") || Contains(message, "cost") then PaymentReply
    else if Contains(message, "appointment") || Contains(message, "schedule") || Contains(message, "visit") then ScheduleReply
    else if Contains(message, "treatment") || Contains(message, "braces") || Contains(message, "invisalign") then TreatmentReply
    else if Contains(message, "insurance") || Contains(message, "coverage") then InsuranceReply
    else if Contains(message, "hello") || Contains(message, "hi") || Contains(message, "help") then GreetingReply
    else if Contains(message, "thank") || Contains(message, "thanks") then ThanksReply
    else DefaultReply
  }

  /** The position of the first keyword group found in a (lower-cased) message; 6 when none is. */
  function FirstTopic(m: string): (k: nat)
    ensures k < |Replies|
  {
    if AnyOf(m, PaymentWords) then 0
    else if AnyOf(m, ScheduleWords) then 1
    else if AnyOf(m, TreatmentWords) then 2
    else if AnyOf(m, InsuranceWords) then 3
    else if AnyOf(m, GreetingWords) then 4
    else if AnyOf(m, ThanksWords) then 5
    else 6
  }

  predicate Plural(n: int) { n > 1 }

  /**
   * `formatMessageTime`, for a message `diffMs` milliseconds old: whole minutes, hours and days
   * are floors, as with `Math.floor` (Dafny's division by a positive number rounds down too).
   * `dateText` stands for `formatDate(timestamp)`.
   */
  function FormatMessageTime(diffMs: int, dateText: string): (text: string)
    ensures diffMs < 60000 ==> text == "Just now"
    ensures diffMs >= 7 * 86400000 ==> text == dateText
    ensures 60000 <= diffMs < 7 * 86400000 ==> EndsWith(text, " ago")
  {
    var minutes := diffMs / 60000;
    var hours := diffMs / 3600000;
    var days := diffMs / 86400000;
    if minutes < 1 then "Just now"
    else if minutes < 60 then IntToString(minutes) + " min ago"
    else if hours < 24 then IntToString(hours) + " hour" + (if hours > 1 then "s" else "") + " ago"
    else if days < 7 then IntToString(days) + " day" + (if days > 1 then "s" else "") + " ago"
    else dateText
  }

  /** The three messages the chat opens with; their time stamps are passed in. */
  function InitialMessages(t1: string, t2: string, t3: string): seq<ChatMessage> {
    [ ChatMessage("1", "clinic", "Treatment Coordinator", "Hello! How can I help you today?", t1),
      ChatMessage("2", "patient", "You", "I have a question about my payment plan.", t2),
      ChatMessage("3", "clinic", "Treatment Coordinator", "Of course! What would you like to know?", t3) ]
  }

  function PatientMessage(now: int, nowIso: string, text: string): ChatMessage {
    ChatMessage(IntToString(now), "patient", "You", text, nowIso)
  }

  function ClinicMessage(now: int, nowIso: string, input: string): ChatMessage {
    ChatMessage(IntToString(now + 1), "clinic", "Treatment Coordinator", ClinicResponse(input), nowIso)
  }

  /**
   * The chat's state. The reply delay is collapsed, so a send appends the reply before it returns;
   * the clock readings of the send and of the reply are passed in.
   */
  class Chat {
    var messages: seq<ChatMessage>
    var inputMessage: string
    var isTyping: bool

    constructor (t1: string, t2: string, t3: string)
      ensures messages == InitialMessages(t1, t2, t3) && inputMessage == "" && !isTyping
    {
      messages := InitialMessages(t1, t2, t3);
      inputMessage := "";
      isTyping := false;
    }

    method SetInput(text: string)
      modifies this
      ensures inputMessage == text && messages == old(messages) && isTyping == old(isTyping)
    {
      inputMessage := text;
    }

    /**
     * `handleSendMessage`: a blank input is ignored; otherwise the trimmed text is appended as the
     * patient's message, the input is cleared, and the reply to the untrimmed text follows.
     */
    method HandleSendMessage(sendNow: int, sendIso: string, replyNow: int, replyIso: string)
      modifies this
      ensures Trim(old(inputMessage)) == "" ==>
        messages == old(messages) && inputMessage == old(inputMessage) && isTyping == old(isTyping)
      ensures Trim(old(inputMessage)) != "" ==>
        && messages == old(messages) + [PatientMessage(sendNow, sendIso, Trim(old(inputMessage))),
                                        ClinicMessage(replyNow, replyIso, old(inputMessage))]
        && inputMessage == "" && !isTyping
    {
      var sent := inputMessage;
      var trimmed := Trim(sent);
      if trimmed != "" {
        var patientMessage := PatientMessage(sendNow, sendIso, trimmed);
        var reply := ClinicMessage(replyNow, replyIso, sent);
        var before := messages;
        messages := before + [patientMessage];
        inputMessage := "";
        isTyping := true;
        messages := messages + [reply];
        isTyping := false;
        Appended(before, patientMessage, reply);
      }
    }
  }

  // ---------------------------------------------------------------- properties

  lemma Appended(xs: seq<ChatMessage>, a: ChatMessage, b: ChatMessage)
    ensures xs + [a] + [b] == xs + [a, b]
  {
  }

  lemma PaymentGroup(m: string)
    ensures AnyOf(m, PaymentWords) <==> Contains(m, "payment") || Contains(m, "pay") || Contains(m, "cost")
  {
    assert PaymentWords[0] == "payment" && PaymentWords[1] == "pay" && PaymentWords[2] == "cost";
    if AnyOf(m, PaymentWords) {
      var k :| 0 <= k < |PaymentWords| && Contains(m, PaymentWords[k]);
    }
  }

  lemma ScheduleGroup(m: string)
    ensures AnyOf(m, ScheduleWords) <==> Contains(m, "appointment") || Contains(m, "schedule") || Contains(m, "visit")
  {
    assert ScheduleWords[0] == "appointment" && ScheduleWords[1] == "schedule" && ScheduleWords[2] == "visit";
    if AnyOf(m, ScheduleWords) {
      var k :| 0 <= k < |ScheduleWords| && Contains(m, ScheduleWords[k]);
    }
  }

  lemma TreatmentGroup(m: string)
    ensures AnyOf(m, TreatmentWords) <==> Contains(m, "treatment") || Contains(m, "braces") || Contains(m, "invisalign")
  {
    assert TreatmentWords[0] == "treatment" && TreatmentWords[1] == "braces" && TreatmentWords[2] == "invisalign";
    if AnyOf(m, TreatmentWords) {
      var k :| 0 <= k < |TreatmentWords| && Contains(m, TreatmentWords[k]);
    }
  }

  lemma InsuranceGroup(m: string)
    ensures AnyOf(m, InsuranceWords) <==> Contains(m, "insurance") || Contains(m, "coverage")
  {
    assert InsuranceWords[0] == "insurance" && InsuranceWords[1] == "coverage";
    if AnyOf(m, InsuranceWords) {
      var k :| 0 <= k < |InsuranceWords| && Contains(m, InsuranceWords[k]);
    }
  }

  lemma GreetingGroup(m: string)
    ensures AnyOf(m, GreetingWords) <==> Contains(m, "hello") || Contains(m, "hi") || Contains(m, "help")
  {
    assert GreetingWords[0] == "hello" && GreetingWords[1] == "hi" && GreetingWords[2] == "help";
    if AnyOf(m, GreetingWords) {
      var k :| 0 <= k < |GreetingWords| && Contains(m, GreetingWords[k]);
    }
  }

  lemma ThanksGroup(m: string)
    ensures AnyOf(m, ThanksWords) <==> Contains(m, "thank") || Contains(m, "thanks")
  {
    assert ThanksWords[0] == "thank" && ThanksWords[1] == "thanks";
    if AnyOf(m, ThanksWords) {
      var k :| 0 <= k < |ThanksWords| && Contains(m, ThanksWords[k]);
    }
  }

  /** `getClinicResponse` read group by group. */
  lemma ResponseByGroups(patientMessage: string)
    ensures var m := Lower(patientMessage);
      ClinicResponse(patientMessage) ==
        if AnyOf(m, PaymentWords) then PaymentReply
        else if AnyOf(m, ScheduleWords) then ScheduleReply
        else if AnyOf(m, TreatmentWords) then TreatmentReply
        else if AnyOf(m, InsuranceWords) then InsuranceReply
        else if AnyOf(m, GreetingWords) then GreetingReply
        else if AnyOf(m, ThanksWords) then ThanksReply
        else DefaultReply
  {
    var m := Lower(patientMessage);
    PaymentGroup(m);
    ScheduleGroup(m);
    TreatmentGroup(m);
    InsuranceGroup(m);
    GreetingGroup(m);
    ThanksGroup(m);
  }

  /** The reply is the one of the first keyword group found in the lower-cased message. */
  lemma ReplyByFirstTopic(patientMessage: string)
    ensures ClinicResponse(patientMessage) == Replies[FirstTopic(Lower(patientMessage))]
  {
    ResponseByGroups(patientMessage);
    var k := FirstTopic(Lower(patientMessage));
    ReplyAt(k);
  }

  lemma ReplyAt(k: nat)
    requires k < |Replies|
    ensures Replies[k] == if k == 0 then PaymentReply else if k == 1 then ScheduleReply
      else if k == 2 then TreatmentReply else if k == 3 then InsuranceReply
      else if k == 4 then GreetingReply else if k == 5 then ThanksReply else DefaultReply
  {
  }

  /** The seven replies are different texts (of different lengths), so a reply tells which group was matched. */
  lemma RepliesDistinct()
    ensures forall i, j :: 0 <= i < j < |Replies| ==> Replies[i] != Replies[j]
  {
    assert |PaymentReply| == 176 && |ScheduleReply| == 165 && |TreatmentReply| == 178 && |InsuranceReply| == 171;
    assert |GreetingReply| == 123 && |ThanksReply| == 65 && |DefaultReply| == 168;
  }

  /** A reply is given exactly when its group is the first one found. */
  lemma ReplyIdentifiesTopic(patientMessage: string, k: nat)
    requires k < |Replies|
    ensures ClinicResponse(patientMessage) == Replies[k] <==> FirstTopic(Lower(patientMessage)) == k
  {
    ReplyByFirstTopic(patientMessage);
    RepliesDistinct();
  }

  /**
   * Keywords are found as substrings: "hi" inside any word greets, unless an earlier group is
   * found first.
   */
  lemma InnerHiGreets(a: string, b: string)
    requires FirstTopic(Lower(a + "hi" + b)) >= 4
    ensures ClinicResponse(a + "hi" + b) == GreetingReply
  {
    LowerKeyword(a, "hi", b);
    GreetingGroup(Lower(a + "hi" + b));
    ResponseByGroups(a + "hi" + b);
  }

  /** So "this" is answered with the greeting. */
  lemma ThisIsAGreeting()
    ensures ClinicResponse("this") == GreetingReply
  {
    assert "t" + "hi" + "s" == "this";
    LowerThis();
    NoEarlierGroupInThis();
    InnerHiGreets("t", "s");
  }

  lemma LowerThis()
    ensures Lower("this") == "this"
  {
  }

  lemma NoEarlierGroupInThis()
    ensures FirstTopic("this") >= 4
  {
    var m := "this";
    NotContainsLonger(m, "payment");
    NoShortKeywordsInThis();
    NotContainsLonger(m, "appointment");
    NotContainsLonger(m, "schedule");
    NotContainsLonger(m, "visit");
    NotContainsLonger(m, "treatment");
    NotContainsLonger(m, "braces");
    NotContainsLonger(m, "invisalign");
    NotContainsLonger(m, "insurance");
    NotContainsLonger(m, "coverage");
    PaymentGroup(m);
    ScheduleGroup(m);
    TreatmentGroup(m);
    InsuranceGroup(m);
  }

  lemma NoShortKeywordsInThis()
    ensures !Contains("this", "pay") && !Contains("this", "cost")
  {
    var s := "this";
    forall i | 0 <= i <= |s| ensures !StartsWith(s[i..], "pay") && !StartsWith(s[i..], "cost") {
      if i + 3 <= |s| {
        assert s[i..][0] == s[i];
      }
    }
  }

  /** Whole minutes, hours and days, as the thresholds need them. */
  lemma Floors(diffMs: int)
    ensures diffMs / 60000 < 1 <==> diffMs < 60000
    ensures diffMs / 60000 < 60 <==> diffMs < 3600000
    ensures diffMs / 3600000 < 24 <==> diffMs < 86400000
    ensures diffMs / 86400000 < 7 <==> diffMs < 604800000
  {
  }

  /**
   * The relative time: under a minute (or in the future) "Just now"; then whole minutes up to 59,
   * whole hours up to 23 and whole days up to 6, each with a plural "s" above 1; from seven days
   * the formatted date.
   */
  lemma TimeBuckets(diffMs: int, dateText: string)
    ensures var r := FormatMessageTime(diffMs, dateText);
      && (diffMs < 60000 ==> r == "Just now")
      && (60000 <= diffMs < 3600000 ==>
            1 <= diffMs / 60000 < 60 && r == IntToString(diffMs / 60000) + " min ago")
      && (3600000 <= diffMs < 86400000 ==>
            1 <= diffMs / 3600000 < 24
            && r == IntToString(diffMs / 3600000) + " hour" + (if Plural(diffMs / 3600000) then "s" else "") + " ago")
      && (86400000 <= diffMs < 604800000 ==>
            1 <= diffMs / 86400000 < 7
            && r == IntToString(diffMs / 86400000) + " day" + (if Plural(diffMs / 86400000) then "s" else "") + " ago")
      && (diffMs >= 604800000 ==> r == dateText)
  {
    Floors(diffMs);
  }

  /** Exactly one hour reads "1 hour ago", without the plural. */
  lemma OneHour()
    ensures FormatMessageTime(3600000, "") == "1 hour ago"
  {
    assert IntToString(1) == "1";
  }
}
