/**
 * The keyword-driven plan suggester that stands in for an AI model: it reads the patient's
 * objection and the current plan and proposes a new down payment and installment count.
 */
module MockAI {
  import opened Text
  import opened RulesEngine

  /** The five branches, named after the objection each one answers. */
  datatype Strategy = CostSensitive | Affordability | NeedsTime | MonthlyBurden | Generic

  datatype CurrentPlan = CurrentPlan(totalCost: real, downPayment: real, installments: int)

  /** The structured part of a suggestion (its prose is not modelled). */
  datatype Suggestion = Suggestion(strategy: Strategy, suggestedChanges: Plan, confidence: real)

  const CostWords: seq<string> := ["expensive", "too much", "cost", "price"]
  const AffordWords: seq<string> := ["can't afford", "afford", "budget"]
  const TimeWords: seq<string> := ["time", "think", "decide"]
  const PaymentWords: seq<string> := ["payment", "monthly"]

  /** The branch taken: the first keyword group found in the lower-cased objection. */
  function SelectStrategy(objection: string): Strategy {
    var o := Lower(objection);
    if Contains(o, "expensive") || Contains(o, "too much") || Contains(o, "cost") || Contains(o, "price") then CostSensitive
    else if Contains(o, "can't afford") || Contains(o, "afford") || Contains(o, "budget") then Affordability
    else if Contains(o, "time") || Contains(o, "think") || Contains(o, "decide") then NeedsTime
    else if Contains(o, "payment") || Contains(o, "monthly") then MonthlyBurden
    else Generic
  }

  function Max(a: real, b: real): real { if a >= b then a else b }
  function Min(a: int, b: int): int { if a <= b then a else b }
  function Floor(x: real): real { x.Floor as real }
  function Ceil(x: real): int { -((-x).Floor) }

  /** `getObjectionSuggestion`, restricted to branch selection and `suggestedChanges`. */
  function GetObjectionSuggestion(objection: string, current: CurrentPlan): (r: Suggestion)
    ensures r.strategy == SelectStrategy(objection) && r.confidence == 0.85
    ensures r.suggestedChanges.downPayment >= 500.0 && r.suggestedChanges.installments <= 24
  {
    var d, i := current.downPayment, current.installments;
    var strategy := SelectStrategy(objection);
    var changes :=
      match strategy
      case CostSensitive => Plan(Max(500.0, Floor(d * 0.5)), Min(24, i * 2))
      case Affordability => Plan(500.0, 24)
      case NeedsTime => Plan(Max(500.0, Floor(d * 0.7)), Min(24, Ceil(i as real * 1.5)))
      case MonthlyBurden => Plan(Max(500.0, Floor(d * 0.6)), 24)
      case Generic => Plan(Max(500.0, Floor(d * 0.75)), Min(24, Ceil(i as real * 1.2)));
    Suggestion(strategy, changes, 0.85)
  }

  /**
   * Every branch eases the plan it is given: for a non-negative plan the suggested down payment is
   * no more than the larger of 500 and the current one, and the term no shorter than the current
   * one, up to 24 months.
   */
  lemma SuggestionBounds(objection: string, current: CurrentPlan)
    requires current.downPayment >= 0.0 && current.installments >= 0
    ensures GetObjectionSuggestion(objection, current).suggestedChanges.downPayment <= Max(500.0, current.downPayment)
    ensures GetObjectionSuggestion(objection, current).suggestedChanges.installments >= Min(24, current.installments)
  {
    var d, i := current.downPayment, current.installments;
    FloorAtMost(d * 0.5, d);
    FloorAtMost(d * 0.6, d);
    FloorAtMost(d * 0.7, d);
    FloorAtMost(d * 0.75, d);
    CeilAtLeast(i as real * 1.5, i);
    CeilAtLeast(i as real * 1.2, i);
  }

  lemma FloorAtMost(x: real, d: real)
    requires x <= d
    ensures Floor(x) <= d
  {
  }

  lemma CeilAtLeast(x: real, i: int)
    requires x >= i as real
    ensures Ceil(x) >= i
  {
  }

  /** The afford branch ignores the plan entirely; the payment branch always asks for 24 months. */
  lemma FixedBranches(objection: string, current: CurrentPlan)
    ensures SelectStrategy(objection) == Affordability ==>
              GetObjectionSuggestion(objection, current).suggestedChanges == Plan(500.0, 24)
    ensures SelectStrategy(objection) == MonthlyBurden ==>
              GetObjectionSuggestion(objection, current).suggestedChanges.installments == 24
  {
  }

  /** The cost branch halves the down payment (rounded down, at least 500) and doubles the term (at most 24). */
  lemma CostBranchFormula(objection: string, current: CurrentPlan)
    requires SelectStrategy(objection) == CostSensitive
    ensures var p := GetObjectionSuggestion(objection, current).suggestedChanges;
      && p.downPayment == Max(500.0, (current.downPayment / 2.0).Floor as real)
      && p.installments == Min(24, 2 * current.installments)
  {
  }

  /**
   * Keyword precedence: any cost word wins whatever else is said; otherwise an afford word
   * wins over the later groups, and so on down the list.
   */
  lemma KeywordPrecedence(objection: string)
    ensures AnyOf(Lower(objection), CostWords) <==> SelectStrategy(objection) == CostSensitive
    ensures !AnyOf(Lower(objection), CostWords) && AnyOf(Lower(objection), AffordWords) <==>
              SelectStrategy(objection) == Affordability
    ensures !AnyOf(Lower(objection), CostWords + AffordWords) && AnyOf(Lower(objection), TimeWords) <==>
              SelectStrategy(objection) == NeedsTime
    ensures !AnyOf(Lower(objection), CostWords + AffordWords + TimeWords) && AnyOf(Lower(objection), PaymentWords) <==>
              SelectStrategy(objection) == MonthlyBurden
    ensures !AnyOf(Lower(objection), CostWords + AffordWords + TimeWords + PaymentWords) <==>
              SelectStrategy(objection) == Generic
  {
    var o := Lower(objection);
    CostGroup(o);
    AffordGroup(o);
    TimeGroup(o);
    PaymentGroup(o);
    AnyOfConcat(o, CostWords, AffordWords);
    AnyOfConcat(o, CostWords + AffordWords, TimeWords);
    AnyOfConcat(o, CostWords + AffordWords + TimeWords, PaymentWords);
  }

  lemma CostGroup(o: string)
    ensures AnyOf(o, CostWords) <==> Contains(o, "expensive") || Contains(o, "too much") || Contains(o, "cost") || Contains(o, "price")
  {
    assert CostWords[0] == "expensive" && CostWords[1] == "too much" && CostWords[2] == "cost" && CostWords[3] == "price";
    if AnyOf(o, CostWords) {
      var k :| 0 <= k < |CostWords| && Contains(o, CostWords[k]);
    }
  }

  lemma AffordGroup(o: string)
    ensures AnyOf(o, AffordWords) <==> Contains(o, "can't afford") || Contains(o, "afford") || Contains(o, "budget")
  {
    assert AffordWords[0] == "can't afford" && AffordWords[1] == "afford" && AffordWords[2] == "budget";
    if AnyOf(o, AffordWords) {
      var k :| 0 <= k < |AffordWords| && Contains(o, AffordWords[k]);
    }
  }

  lemma TimeGroup(o: string)
    ensures AnyOf(o, TimeWords) <==> Contains(o, "time") || Contains(o, "think") || Contains(o, "decide")
  {
    assert TimeWords[0] == "time" && TimeWords[1] == "think" && TimeWords[2] == "decide";
    if AnyOf(o, TimeWords) {
      var k :| 0 <= k < |TimeWords| && Contains(o, TimeWords[k]);
    }
  }

  lemma PaymentGroup(o: string)
    ensures AnyOf(o, PaymentWords) <==> Contains(o, "payment") || Contains(o, "monthly")
  {
    assert PaymentWords[0] == "payment" && PaymentWords[1] == "monthly";
    if AnyOf(o, PaymentWords) {
      var k :| 0 <= k < |PaymentWords| && Contains(o, PaymentWords[k]);
    }
  }

  /** "price" anywhere in the objection picks the cost branch. */
  lemma PriceAlwaysWins(a: string, b: string)
    ensures SelectStrategy(a + "price" + b) == CostSensitive
  {
    LowerKeyword(a, "price", b);
  }

  /** So does "PRICE": the objection is lower-cased before the keywords are looked for. */
  lemma UpperPriceAlsoWins(a: string, b: string)
    ensures SelectStrategy(a + "PRICE" + b) == CostSensitive
  {
    var o := Lower(a + "PRICE" + b);
    LowerConcat(a + "PRICE", b);
    LowerConcat(a, "PRICE");
    assert Lower("PRICE") == "price";
    assert o == Lower(a) + "price" + Lower(b);
    ContainsInfix(Lower(a), "price", Lower(b));
  }

  /**
   * The suggester never reads the rules: its afford suggestion of 500 down breaks any rule set
   * whose minimum is above 500.
   */
  lemma SuggestionIgnoresRules(current: CurrentPlan, rules: Rules)
    requires rules.minDownPayment > 500.0
    ensures var p := GetObjectionSuggestion("budget", current).suggestedChanges;
            ViolationOf(MinDown, rules) in Violations(p.downPayment, p.installments, current.totalCost, rules)
  {
    var o := Lower("budget");
    assert o == "budget";
    ContainsTrivial(o);
    assert !Contains(o, "expensive") && !Contains(o, "too much") && !Contains(o, "price") && !Contains(o, "cost") by {
      NotContainsLonger(o, "expensive");
      NotContainsLonger(o, "too much");
      NoCostInBudget();
    }
  }

  lemma NoCostInBudget()
    ensures !Contains("budget", "cost") && !Contains("budget", "price")
  {
    var s := "budget";
    forall i | 0 <= i <= |s| ensures !StartsWith(s[i..], "cost") && !StartsWith(s[i..], "price") {
      if i + 4 <= |s| {
        assert s[i..][0] == s[i];
      }
    }
  }
}
