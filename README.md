# bandwire payment-plan core, modelled in Dafny

bandwire is an orthodontic payment app for treatment coordinators and patients. Its centre is a
payment-plan rules engine. `validatePaymentPlan` reports which of five checks a down payment and
an installment count fail. `autoFixPaymentPlan` clamps a plan back into range. Around the engine
sit the screens and components that call it and the decision logic beside them:

- the plan editor that blocks invalid keystrokes;
- the consultation screen's AI-suggestion pipeline and the agreement screen's finalize gate;
- the admin panel's rule and preset editing;
- the application reducer;
- the keyword rule sets of the mock AI, the follow-up classifier and the patient chat;
- the CSV patient import, the card-input sanitisers and the saved payment methods;
- the follow-up queue, the payments list, the ledger and the treatment breakdown.

This project models that logic and proves what it promises. One Dafny module stands for each
source file. Five modules of shared helpers sit beside them:

- `Wrappers` holds the `Option` type.
- `Text` holds the JavaScript string operations used: trim, ASCII case mapping, includes, split,
  digit filtering and number formatting.
- `Dict` holds a JavaScript object used as a dictionary, as an association list in insertion order.
- `Seqs` holds `filter`.
- `Entities` holds the records several screens share.

The form follows the source. Pure code becomes functions. Handlers that change component state
become methods of a class whose fields are that state, each proved against a function that states what it computes.
A dispatch to the application store goes to a `Store` object whose state is the reducer's result.

Money is `real`, with exact arithmetic. Installment counts are `int`. The clock, `Math.random`,
`window.confirm`, `parseFloat`/`parseInt` results and the demo data are parameters.
`setTimeout` delays are collapsed, so the delayed step runs at once.

## Model

| member | source | states |
|---|---|---|
| RulesEngine.ValidatePaymentPlan | src/utils/rulesEngine.js:1-40 | the pushed errors are exactly `Violations`: one violation per firing check, in the order min-down, zero-down, max-term, ceiling, min-term |
| RulesEngine.ViolationsExactlyFiring | src/utils/rulesEngine.js:4-37 | at most five violations; a check's violation is reported if and only if that check fires |
| RulesEngine.FiringIff | src/utils/rulesEngine.js:4-37 | for one check: it fires if and only if its violation is in the result |
| RulesEngine.OutcomeOf | src/utils/rulesEngine.js:4-37 | a check's violation can only come from that check's own `if`, and comes from it exactly when it fires |
| RulesEngine.MessagesDistinct | src/utils/rulesEngine.js:5-36 | no two checks push the same violation |
| RulesEngine.PassesIffNoViolations | src/utils/rulesEngine.js:4-39 | the result is empty if and only if d >= min, not (d = 0 and zero down disallowed), i <= max, d <= total and i >= 1 |
| RulesEngine.FieldTags | src/utils/rulesEngine.js:6-34 | a `downPayment`-tagged violation is present iff check 1, 2 or 4 fires; an `installments`-tagged one iff check 3 or 5 fires |
| RulesEngine.CheckFields | src/utils/rulesEngine.js:6-34 | a field tag is reported iff some firing check carries that tag |
| RulesEngine.ZeroDownReported | src/utils/rulesEngine.js:11-16 | with zero down disallowed, a zero down payment always reports "Down payment cannot be $0", even with a zero minimum |
| RulesEngine.ZeroDownOrder | src/utils/rulesEngine.js:4-16 | with a positive minimum, a zero down payment reports the minimum violation and then the zero-down violation, first in the list |
| RulesEngine.StrictBoundaries | src/utils/rulesEngine.js:18-32 | d = total raises no ceiling violation, i = max no max-term violation, i = 1 no min-term violation; i = 0 always does |
| RulesEngine.AutoFixPaymentPlan | src/utils/rulesEngine.js:42-69 | the five clamps give `AutoFix`; the down payment is at most the total; installments lie in [1, max] when max >= 1 and are 1 otherwise |
| RulesEngine.InstallmentClamp | src/utils/rulesEngine.js:58-63 | repaired installments lie in [1, max] when max >= 1 and equal 1 when max < 1; an in-range count is kept |
| RulesEngine.DownPaymentClamp | src/utils/rulesEngine.js:47-55 | repaired down payment <= total; >= min whenever min <= total; equal to the total when min > total |
| RulesEngine.AutoFixKeepsPassingPlan | src/utils/rulesEngine.js:42-69 | a plan with no violations is returned unchanged |
| RulesEngine.AutoFixIdempotent | src/utils/rulesEngine.js:42-69 | repairing a repaired plan changes nothing, outside the one configuration of AutoFixNotIdempotentWithNegativeMinimum |
| RulesEngine.AutoFixNotIdempotentWithNegativeMinimum | src/utils/rulesEngine.js:47-55 | with min -5, zero down disallowed and total 0, down payment 10 is repaired to 0 and then to -5 |
| RulesEngine.AutoFixPassesWhen | src/utils/rulesEngine.js:42-69 | the repaired plan passes revalidation when max >= 1, min <= total, and min > 0 or zero down is allowed |
| RulesEngine.AutoFixFailsWithout | src/utils/rulesEngine.js:42-69 | when max < 1 or min > total, the repaired plan still fails |
| RulesEngine.RepairGap | src/utils/rulesEngine.js:47-52 | with min 0 and zero down disallowed, a down payment <= 0 is repaired to 0, and revalidation still reports the zero-down violation |
| RulesEngine.FormatUSD | src/utils/rulesEngine.js:71-76 | a leading minus exactly for a negative rounded amount, then the point and two decimal digits at the end |
| RulesEngine.FormatUSDReadsBack | src/utils/rulesEngine.js:71-76 | after the sign and `$`, the whole dollars without their commas and the two decimals read back to the rounded number of cents |
| RulesEngine.GroupThousandsDropCommas | src/utils/rulesEngine.js:71-76 | the thousands grouping only inserts commas |
| RulesEngine.FormatUSDNegates | src/utils/rulesEngine.js:71-76 | a negative amount is written as the positive one with a leading minus |
| RulesEngine.FormatUSDThousand | src/utils/rulesEngine.js:71-76 | 1000 is formatted as "$1,000.00" |
| RulesEngine.ScenarioBelowMinimum | src/utils/rulesEngine.js:4-9 | 500 down against a 1000 minimum gives exactly "Minimum down payment is $1,000.00", and repair raises it to 1000 |
| RulesEngine.ScenarioOverMaxTerm | src/utils/rulesEngine.js:18-23 | 30 months against a 24 maximum gives exactly "Maximum installment duration is 24 months"; repair gives 24, which passes |
| RulesEngine.ScenarioOverTotal | src/utils/rulesEngine.js:25-30 | 6000 down on a 5000 total gives exactly the ceiling violation, and repair lowers it to 5000 |
| Helpers.MonthlyPayment | src/utils/helpers.js:1-5 | no installments gives 0; otherwise the down payment plus installments times the monthly amount is exactly the total |
| Helpers.MonthlyPaymentNonNegative | src/utils/helpers.js:1-5 | a down payment within the total never gives a negative monthly amount |
| Helpers.MonthlyPaymentMonotone | src/utils/helpers.js:1-5 | a larger down payment never gives a larger monthly amount |
| Helpers.RandomTxnNumber | src/utils/helpers.js:15 | the random part is below 100000 |
| Helpers.TransactionIdFormat | src/utils/helpers.js:14-17 | the id has 16 characters, starts "STRIPE_TXN_", and ends in five digits that spell the random number with leading zeros |
| AppContext.InitialState | src/context/AppContext.jsx:6-39 | the app starts with no saved methods, no history, no follow-ups and no custom patients, nothing finalized, signed or paid |
| AppContext.ImportedPatients | src/context/AppContext.jsx:65-68 | a bulk import gives one patient per record |
| AppContext.Store.constructor | src/context/AppContext.jsx:196 | the store starts in the given state |
| AppContext.Store.Dispatch | src/context/AppContext.jsx:196 | a dispatch replaces the state by the reducer's result |
| AppContext.UpdateConsultationMerges | src/context/AppContext.jsx:73-80 | each of the six payload fields, when present, overwrites the consultation field of that name, and is kept when absent; nothing outside the consultation changes |
| AppContext.MergeIdempotent | src/context/AppContext.jsx:73-80 | merging a payload twice equals merging it once, and an empty payload changes nothing; the rules merge at lines 177-184 is the same merge |
| AppContext.UpdateRulesMerges | src/context/AppContext.jsx:177-184 | each of the five payload rule fields, when present, overwrites that rule, and is kept when absent; nothing else changes |
| AppContext.Reduce | src/context/AppContext.jsx:41-193 | the three fall-through actions leave the state unchanged; only `UPDATE_RULES` changes the rules; only creating and importing patients change the custom patients; the payment history is only ever extended |
| AppContext.ApplySuggestionScope | src/context/AppContext.jsx:81-89 | only the down payment and installments change, to the suggestion's |
| AppContext.FinalizeAndSendScope | src/context/AppContext.jsx:90-119 | finalize only sets `finalized`; sending only sets `sentForSignature` and the sent date |
| AppContext.SignScope | src/context/AppContext.jsx:98-110 | signing sets `signed` and the signature whether or not the agreement was finalized, and starts the payment clock; nothing else changes |
| AppContext.CompletePaymentRecord | src/context/AppContext.jsx:120-143 | one completed record is appended, keyed by the transaction id, dated now and filed under the current patient's id and name; a falsy amount falls back to the down payment and a falsy type to "Down Payment", while a truthy amount or type is stored as given; the payment is marked completed |
| AppContext.SetFollowUpStores | src/context/AppContext.jsx:149-163 | the data is stored under `patientId_agreementId`, with a missing timeline or communication list stored as []; other keys and the rest of the state are kept |
| AppContext.UpdateCommunicationsScope | src/context/AppContext.jsx:164-176 | only the communications under the key are replaced, creating the entry when absent; other keys are kept |
| AppContext.CreatePatientAppends | src/context/AppContext.jsx:53-63 | one patient with id `patient-<now>` and the payload's other fields is appended and made current |
| AppContext.BulkImportAppends | src/context/AppContext.jsx:64-72 | every imported record is appended in order with its fields, and the current patient is kept |
| AppContext.UnhandledActionsChangeNothing | src/context/AppContext.jsx:190-263 | the save and remove payment-method actions, and any unknown action, leave the state as it was |
| AppContext.SavedMethodsNeverChange | src/context/AppContext.jsx:41-192 | no sequence of dispatches changes the saved payment methods |
| AppContext.HistoryOnlyGrows | src/context/AppContext.jsx:120-148 | no sequence of dispatches removes or changes an entry of the payment history |
| PaymentPlanEditor.PlanPatchKeepsCost | src/components/PaymentPlanEditor.jsx:10-98 | committing plan fields leaves the rules and the patient cost unchanged |
| PaymentPlanEditor.Editor.constructor | src/components/PaymentPlanEditor.jsx:11-13 | the editor starts with no errors and the stored down payment and installments |
| PaymentPlanEditor.Editor.Validate | src/components/PaymentPlanEditor.jsx:20-32 | the pair's violations against the patient cost are shown and reported; the local fields are kept |
| PaymentPlanEditor.Editor.HandleDownPaymentChange | src/components/PaymentPlanEditor.jsx:34-58 | the value (NaN as 0) is shown and its violations reported; it reaches the store iff no down-payment violation blocks a non-zero value |
| PaymentPlanEditor.Editor.HandleInstallmentsChange | src/components/PaymentPlanEditor.jsx:60-84 | the count (NaN as 0) is shown and its violations reported; it reaches the store iff no installments violation blocks a positive count |
| PaymentPlanEditor.Editor.HandleFixWithAI | src/components/PaymentPlanEditor.jsx:86-100 | the local pair is repaired against the patient cost, both fields are committed and the repaired pair is revalidated |
| PaymentPlanEditor.Editor.SyncFromConsultation | src/components/PaymentPlanEditor.jsx:15-18 | the local fields follow the stored consultation |
| PaymentPlanEditor.DownPaymentBlockedIff | src/components/PaymentPlanEditor.jsx:44-45 | a down-payment keystroke is blocked iff it is non-zero and below the minimum or above the patient cost |
| PaymentPlanEditor.InstallmentsBlockedIff | src/components/PaymentPlanEditor.jsx:70-71 | an installments keystroke is blocked iff it is positive and above the maximum term |
| PaymentPlanEditor.ZeroSlipsThrough | src/components/PaymentPlanEditor.jsx:35-45 | 0, and unparsable input, is never blocked, even where the rules reject a zero down payment |
| PaymentPlanEditor.NonPositiveInstallmentsCommitted | src/components/PaymentPlanEditor.jsx:61-71 | a count of 0 or less is always committed, though it breaks the minimum-term rule |
| PaymentPlanEditor.BlockingIsPerField | src/components/PaymentPlanEditor.jsx:44-70 | violations of the other field never block a change |
| PaymentPlanEditor.CommittedErrorsMatchStore | src/components/PaymentPlanEditor.jsx:55-57 | after a committed down payment the store holds the new value with the old installments, the same patient cost and rules; when the local installment count equals the stored one, the errors shown are the violations of the stored plan |
| PaymentPlanEditor.StaleInstallmentsInErrors | src/components/PaymentPlanEditor.jsx:15-57 | with a 24-month maximum, a blocked keystroke of 30 months keeps 12 in the store; a committed down payment of 2,000 is then checked against 30 and shows a violation although 2,000 over 12 months passes |
| PaymentPlanEditor.ResyncedDownPaymentErrors | src/components/PaymentPlanEditor.jsx:55-57 | checking a down payment against the stored installment count gives exactly the violations of the plan the store holds after the commit |
| ConsultationScreen.SuggestAndRepair | src/screens/ConsultationScreen.jsx:67-110 | the suggestion shown is the reviewed one; its errors are its violations against the gross cost, and it is valid iff there are none |
| ConsultationScreen.Screen.constructor | src/screens/ConsultationScreen.jsx:18-58 | the screen starts with no errors, not validated, no objection, no suggestion, the suggestion section hidden and the suggestion flag valid |
| ConsultationScreen.Screen.AutoValidate | src/screens/ConsultationScreen.jsx:27-36 | the stored plan is checked against the gross cost; afterwards both proceed buttons (lines 392 and 403) are enabled iff the plan passes every check |
| ConsultationScreen.Screen.OnValidationChange | src/screens/ConsultationScreen.jsx:186-189 | the editor's errors replace the screen's, which is validated iff there are none |
| ConsultationScreen.Screen.EditDownPayment | src/screens/ConsultationScreen.jsx:186-189 | a blocked keystroke leaves the store and shows the editor's net-cost errors; a committed change updates the store and shows the gross-cost check of the new plan, as the effect at lines 27-36 recomputes it; the editor holds the typed value and its own errors; a commit re-syncs its installments to the stored count, as the effect at src/components/PaymentPlanEditor.jsx:15-18 does after every new consultation object, while a blocked keystroke keeps them; the AI-section state is untouched |
| ConsultationScreen.Screen.HandleGetAISuggestion | src/screens/ConsultationScreen.jsx:60-115 | a blank objection changes nothing; otherwise the reviewed suggestion is shown with its gross-cost violations and validity, and the plan editor state and objection are kept |
| ConsultationScreen.Screen.ShowSuggestion | src/screens/ConsultationScreen.jsx:65-108 | after the delay, the suggestion is the reviewed one, its errors are its gross-cost violations, and it is valid iff there are none |
| ConsultationScreen.Screen.HandleApplySuggestion | src/screens/ConsultationScreen.jsx:117-126 | only a present and valid suggestion reaches the store, after which the suggestion section resets; otherwise nothing changes |
| ConsultationScreen.ReviewRepairsExactlyFailing | src/screens/ConsultationScreen.jsx:67-110 | the repair is applied iff the raw suggestion fails; a passing one is kept unflagged, a failing one carries the repair and remembers the original |
| ConsultationScreen.ShownSuggestionPassesWhen | src/screens/ConsultationScreen.jsx:86-109 | under rules the repair can satisfy, every shown suggestion passes and can be applied |
| ConsultationScreen.ShownSuggestionFailsWhenMinimumExceedsCost | src/screens/ConsultationScreen.jsx:86-118 | when the minimum exceeds the total no shown suggestion passes, so none can be applied |
| ConsultationScreen.CostBasesDisagree | src/screens/ConsultationScreen.jsx:28-33 | with 4,500 of 5,000 covered, 1,000 down over 12 months passes here against the gross cost but is rejected by the editor against the 500 owed |
| ConsultationScreen.NetViolations | src/screens/ConsultationScreen.jsx:26-35 | the stored plan checked against the patient cost: empty iff the plan passes every check on that basis |
| ConsultationScreen.NetCheckAgreesWithEditor | src/components/PaymentPlanEditor.jsx:55-57 | with the net check, after a committed down payment the screen shows the same violations as the editor, when the editor's installment count is the stored one |
| AgreementScreen.EditWhere | src/screens/AgreementScreen.jsx:155-203 | an edit keeps the number of agreements |
| AgreementScreen.TargetId | src/screens/AgreementScreen.jsx:154-197 | the target is the selected agreement's id when there is one with a non-empty id, else "CURRENT" |
| AgreementScreen.InitialAgreements | src/screens/AgreementScreen.jsx:44-62 | the demo agreements come first, followed by the session's agreement, with id "CURRENT", exactly when it is finalized |
| AgreementScreen.InsertIfAbsent | src/screens/AgreementScreen.jsx:70-76 | the agreement is listed afterwards; a list that had its id is kept, otherwise it goes to the front |
| AgreementScreen.StatusFilter | src/screens/AgreementScreen.jsx:112-119 | the status filter keeps exactly the agreements it admits (order and multiplicity in StatusFilterInOrder) |
| AgreementScreen.StatusFilterInOrder | src/screens/AgreementScreen.jsx:112-119 | the filter works piecewise over concatenation, so the kept agreements are in list order, and each is kept as often as it occurs when admitted, never otherwise |
| AgreementScreen.Screen.constructor | src/screens/AgreementScreen.jsx:14-62 | the screen starts in list mode, with nothing selected or sent, on the initial agreements |
| AgreementScreen.Screen.OpenFromConfigurator | src/screens/AgreementScreen.jsx:24-78 | the configurator's agreement is selected and opened in detail, and listed unless its id is already there; the sent flag is re-derived afterwards by SyncAgreementSent |
| AgreementScreen.Screen.HandleFinalize | src/screens/AgreementScreen.jsx:140-169 | a stored plan that breaks a rule changes nothing; otherwise the store is finalized and the target row and the selection are marked finalized |
| AgreementScreen.Screen.HandleSign | src/screens/AgreementScreen.jsx:171-191 | the store is signed and the target row and the selection are marked signed, with no check of finalization or the rules |
| AgreementScreen.Screen.HandleSendForSignature | src/screens/AgreementScreen.jsx:193-214 | the store is marked sent, the screen records the sending, and the target row and the selection carry the sent date |
| AgreementScreen.EditScope | src/screens/AgreementScreen.jsx:155-203 | only rows with the target id change, ids never change, and a matching row gets exactly the flags its edit names |
| AgreementScreen.EditAbsentIdChangesNothing | src/screens/AgreementScreen.jsx:155-159 | a list without the target id is unchanged |
| AgreementScreen.EditIdempotent | src/screens/AgreementScreen.jsx:155-203 | repeating an edit with the same stamps gives the same list |
| AgreementScreen.SignWithoutFinalize | src/screens/AgreementScreen.jsx:114-179 | an unfinalized agreement, once signed, stays unfinalized and shows under both the signed and draft filters |
| AgreementScreen.OtherFilterKeepsAll | src/screens/AgreementScreen.jsx:117 | a filter value other than the three named ones keeps every agreement |
| AgreementScreen.StatusFiltersPartition | src/screens/AgreementScreen.jsx:114-116 | the three filters together count every agreement once, plus those signed without being finalized, which are counted twice |
| AgreementScreen.InsertIfAbsentIdempotent | src/screens/AgreementScreen.jsx:70-76 | opening the same agreement twice adds it at most once |
| AgreementScreen.Screen.SyncAgreementSent | src/screens/AgreementScreen.jsx:80-92 | the sent flag is the store's for the CURRENT or AGR- agreement, the row's own for any other, and false with nothing selected; the list, the selection and the view are untouched |
| AgreementScreen.SentFlagSources | src/screens/AgreementScreen.jsx:80-92 | the store's flag matters exactly for the session's own agreement; nothing selected shows not sent; an agreement opened from the configurator shows the store's flag |
| AdminPanel.EditPreset | src/screens/AdminPanel.jsx:29-34 | an edit keeps the number of presets |
| AdminPanel.DeletePreset | src/screens/AdminPanel.jsx:36-40 | deletion drops exactly the presets with that id and keeps every other one |
| AdminPanel.Panel.constructor | src/screens/AdminPanel.jsx:9-15 | the inputs start from the stored rules; a falsy discount or monthly minimum shows 10 or 100 |
| AdminPanel.Panel.HandleSaveRules | src/screens/AdminPanel.jsx:17-27 | a negative minimum or a maximum below one month saves nothing; otherwise the four edited fields are merged into the rules |
| AdminPanel.Panel.HandleSavePreset | src/screens/AdminPanel.jsx:29-34 | the update is merged into the preset with that id and the editor closes; the four rule inputs are untouched |
| AdminPanel.Panel.HandleDeletePreset | src/screens/AdminPanel.jsx:36-40 | a confirmed delete removes the presets with that id; a declined one changes nothing; the preset editor and the four rule inputs are untouched |
| AdminPanel.Panel.HandleAddPreset | src/screens/AdminPanel.jsx:42-52 | one new preset is appended and opened for editing; the four rule inputs are untouched |
| AdminPanel.SaveKeepsZeroDownFlag | src/screens/AdminPanel.jsx:21-101 | saving sets the four edited fields and keeps the zero-down flag, which the panel only displays |
| AdminPanel.AcceptedRulesRepairCleanly | src/screens/AdminPanel.jsx:18-26 | rules that pass the save guard make the plan repair idempotent with installments in [1, max] |
| AdminPanel.EditPresetScope | src/screens/AdminPanel.jsx:31 | an edit changes only the presets with that id, merges the update into them, and never changes an id |
| AdminPanel.EmptyEditChangesNothing | src/screens/AdminPanel.jsx:31 | an empty update leaves every preset as it was |
| AdminPanel.DeletePreservesOrder | src/screens/AdminPanel.jsx:38 | deletion works piecewise over a concatenation, so kept presets stay in order |
| AdminPanel.DeleteAbsentAndTwice | src/screens/AdminPanel.jsx:38 | deleting an absent id keeps the list; deleting twice equals deleting once |
| AdminPanel.AddPresetAppends | src/screens/AdminPanel.jsx:42-50 | the new preset goes at the end, with 15% down over 12 months and an id starting "preset-" |
| MockAI.SuggestionBounds | src/utils/mockAI.js:17-54 | every branch eases a non-negative plan: the down payment is at most the larger of 500 and the current one, and the term at least the current one up to 24 months |
| MockAI.GetObjectionSuggestion | src/utils/mockAI.js:1-57 | the strategy is the one the keywords select, the confidence is 0.85, the down payment is at least 500 and the installments at most 24 |
| MockAI.FixedBranches | src/utils/mockAI.js:25-44 | the afford branch always suggests 500 down over 24 months; the payment branch always 24 months |
| MockAI.CostBranchFormula | src/utils/mockAI.js:20-23 | the cost branch suggests max(500, floor(down / 2)) down and min(24, 2 x installments) months |
| MockAI.KeywordPrecedence | src/utils/mockAI.js:2-46 | each branch is taken if and only if its keyword group matches the lower-cased objection and no earlier group does |
| MockAI.CostGroup | src/utils/mockAI.js:17 | the cost group matches iff the text contains "expensive", "too much", "cost" or "price" |
| MockAI.AffordGroup | src/utils/mockAI.js:25 | the afford group matches iff the text contains "can't afford", "afford" or "budget" |
| MockAI.TimeGroup | src/utils/mockAI.js:32 | the time group matches iff the text contains "time", "think" or "decide" |
| MockAI.PaymentGroup | src/utils/mockAI.js:39 | the payment group matches iff the text contains "payment" or "monthly" |
| MockAI.PriceAlwaysWins | src/utils/mockAI.js:17 | any objection containing "price" takes the cost branch |
| MockAI.UpperPriceAlsoWins | src/utils/mockAI.js:2-17 | so does one containing "PRICE", because the objection is lower-cased first |
| MockAI.SuggestionIgnoresRules | src/utils/mockAI.js:27-30 | under any rules whose minimum exceeds 500, the afford suggestion draws the minimum-down violation |
| MockAI.NoCostInBudget | src/utils/mockAI.js:17-25 | "budget" contains neither "cost" nor "price", so it reaches the afford branch |
| FollowUpScreen.UnansweredOutbound | src/screens/FollowUpScreen.jsx:92 | the count of unanswered outbound messages is at most the number of messages |
| FollowUpScreen.DetermineStatus | src/screens/FollowUpScreen.jsx:39-69 | the status is one of signed, paid, observation and consultation, and consultation without any message |
| FollowUpScreen.DetermineSequence | src/screens/FollowUpScreen.jsx:71-112 | the sequence is empty iff the status is, and is otherwise one of the three timeline keys |
| FollowUpScreen.GenerateTimeline | src/screens/FollowUpScreen.jsx:259-333 | every timeline has three steps, the first completed and dated "Today" |
| FollowUpScreen.StatusRange | src/screens/FollowUpScreen.jsx:39-69 | the classifier always gives one of the four statuses, and "consultation" without any message |
| FollowUpScreen.LastMessageDecides | src/screens/FollowUpScreen.jsx:44-68 | only the last message counts: histories ending in the same message get the same status |
| FollowUpScreen.ResponseKeywordOrder | src/screens/FollowUpScreen.jsx:47-61 | with a response, each status is given iff its keyword group matches the lower-cased response and no earlier group does |
| FollowUpScreen.SignedGroup | src/screens/FollowUpScreen.jsx:49 | the signed group matches iff the text contains "signed", "agree" or "yes" |
| FollowUpScreen.PaidGroup | src/screens/FollowUpScreen.jsx:52 | the paid group matches iff the text contains "paid" or "payment" |
| FollowUpScreen.HesitantGroup | src/screens/FollowUpScreen.jsx:55-58 | the hesitant groups match iff the text contains "think", "time", "consider", "interested" or "maybe" |
| FollowUpScreen.ThinkingGroup | src/screens/FollowUpScreen.jsx:86 | the thinking group matches iff the text contains "think", "time" or "consider" |
| FollowUpScreen.NoResponseFallback | src/screens/FollowUpScreen.jsx:64-68 | without a response, an outbound last message means observation and an inbound one consultation |
| FollowUpScreen.SequenceRange | src/screens/FollowUpScreen.jsx:71-112 | no sequence iff no status; signed and paid are gentle; consultation is aggressive without history and standard with it; any other status is standard |
| FollowUpScreen.ObservationSequence | src/screens/FollowUpScreen.jsx:80-99 | observation is gentle on a thinking response, else aggressive with two or more unanswered outbound messages, else standard |
| FollowUpScreen.UnansweredCountsOutboundOnly | src/screens/FollowUpScreen.jsx:92 | the count is zero iff every outbound message has a response |
| FollowUpScreen.TimelineShape | src/screens/FollowUpScreen.jsx:259-333 | every timeline has three steps and only the first is completed; the middle step is active in the standard and aggressive timelines and no step is active in the gentle one; an unknown key gets the standard timeline |
| FollowUpScreen.ClassifiedSequenceHasTimeline | src/screens/FollowUpScreen.jsx:259-333 | classifying and then choosing a sequence always gives one of the three keys, each with its own timeline |
| FollowUpQueueScreen.FindAgreement | src/screens/FollowUpQueueScreen.jsx:18 | a found agreement is listed and has that id; none is found iff no agreement has it |
| FollowUpQueueScreen.MergeQueue | src/screens/FollowUpQueueScreen.jsx:12-44 | the loop copies the initial queue and appends one row per admissible stored follow-up, in entry order |
| FollowUpQueueScreen.Toggle | src/screens/FollowUpQueueScreen.jsx:52-60 | toggling flips the membership of that id and keeps every other id |
| FollowUpQueueScreen.FilterQueue | src/screens/FollowUpQueueScreen.jsx:100-108 | the filters keep exactly the items equal to each filter that is not 'all' (order and multiplicity in FilterQueueInOrder) |
| FollowUpQueueScreen.FilterQueueInOrder | src/screens/FollowUpQueueScreen.jsx:100-108 | the filters work piecewise over concatenation, so the kept items are in queue order, and each kept item occurs as often as in the queue |
| FollowUpQueueScreen.QueueView.constructor | src/screens/FollowUpQueueScreen.jsx:45-50 | no row is expanded and the queue is sorted by last contact, descending |
| FollowUpQueueScreen.QueueView.ToggleRow | src/screens/FollowUpQueueScreen.jsx:52-60 | the expanded set is toggled at that id; the sort is kept |
| FollowUpQueueScreen.QueueView.HandleSort | src/screens/FollowUpQueueScreen.jsx:146-153 | the current column flips its order; another column becomes current, descending |
| FollowUpQueueScreen.SplitAtFirst | src/screens/FollowUpQueueScreen.jsx:17 | splitting at a first '_' peels off the text before it |
| FollowUpQueueScreen.SplitKeyRoundTrip | src/screens/FollowUpQueueScreen.jsx:17 | a key written as `patientId_agreementId` splits back into the pair when neither id contains '_' |
| FollowUpQueueScreen.SplitKeyBreaksOnUnderscore | src/screens/FollowUpQueueScreen.jsx:17 | with a '_' in the patient id the split returns the wrong pair |
| FollowUpQueueScreen.MergeKeepsPrefix | src/screens/FollowUpQueueScreen.jsx:13-41 | the initial queue stays in front unchanged, and at most one row per stored follow-up is appended |
| FollowUpQueueScreen.AppendConditions | src/screens/FollowUpQueueScreen.jsx:17-40 | a row is appended iff the follow-up has a status, its agreement resolves and the pair is not listed; otherwise the queue is unchanged |
| FollowUpQueueScreen.ResolvedAgreementKeepsId | src/screens/FollowUpQueueScreen.jsx:18-19 | a resolved agreement has the id it was looked up by, and 'CURRENT' always resolves |
| FollowUpQueueScreen.MergeKeepsPairsUnique | src/screens/FollowUpQueueScreen.jsx:24-25 | a queue without repeated patient and agreement pairs keeps none after the merge |
| FollowUpQueueScreen.DerivedFields | src/screens/FollowUpQueueScreen.jsx:26-38 | an appended row has the status capitalised, "Responded" iff the last message has a response, the fallback next action and treatment, and id `followup-<key>` |
| FollowUpQueueScreen.ToggleTwice | src/screens/FollowUpQueueScreen.jsx:52-60 | toggling a row twice restores the set |
| FollowUpQueueScreen.AllKeepsQueue | src/screens/FollowUpQueueScreen.jsx:101-106 | 'all' on both filters keeps the whole queue |
| CsvImport.StripQuotes | src/components/CSVImport.jsx:19-24 | stripping removes at most the two surrounding quotes |
| CsvImport.Cells | src/components/CSVImport.jsx:19-24 | commas inside quotes are not respected: k commas give k + 1 cells |
| CsvImport.NonBlankFilters | src/components/CSVImport.jsx:15 | the line filter keeps exactly the lines that are not blank, in order, each as often as it occurs |
| CsvImport.NonBlankConcat | src/components/CSVImport.jsx:15 | the line filter works piecewise over concatenation |
| CsvImport.Firsts | src/components/CSVImport.jsx:27-29 | the distinct headers are exactly the headers, each kept once |
| CsvImport.RowOf | src/components/CSVImport.jsx:26-29 | a row's keys are the distinct lower-cased headers, in first-occurrence order |
| CsvImport.LineRow | src/components/CSVImport.jsx:24-31 | one data line contributes at most one row |
| CsvImport.ParseLine | src/components/CSVImport.jsx:24-31 | the loop body gives exactly the line's row, or none when every cell is empty |
| CsvImport.ParseCsv | src/components/CSVImport.jsx:14-34 | the method returns `Parsed`: no rows without a non-blank line, else the rows of the data lines under the first line's headers |
| CsvImport.ParseDataLines | src/components/CSVImport.jsx:22-33 | the row loop collects the rows of every line after the header line, in order |
| CsvImport.ParsedBounds | src/components/CSVImport.jsx:15-31 | no non-blank line gives no rows; otherwise there are at most as many rows as data lines |
| CsvImport.Parsed | src/components/CSVImport.jsx:13-34 | no non-blank line gives no rows; otherwise there are at most as many rows as data lines |
| CsvImport.RowsOfBounds | src/components/CSVImport.jsx:23-31 | at most one row per data line; none when every line is empty of cells, one per line when none is |
| CsvImport.RowKeys | src/components/CSVImport.jsx:19-29 | every parsed row has exactly one key per distinct lower-cased header of the first line |
| CsvImport.RowsOfAreRows | src/components/CSVImport.jsx:26-30 | every parsed row is a row built under the headers |
| CsvImport.RowLookup | src/components/CSVImport.jsx:27-29 | with distinct headers each header reads its own cell, and "" past the last cell |
| CsvImport.QuoteRoundTrip | src/components/CSVImport.jsx:19-24 | stripping undoes quoting, and leaves an unquoted cell alone |
| CsvImport.FirstMatch | src/components/CSVImport.jsx:62-67 | the table scan finds a position between its start and the table's end |
| CsvImport.FirstMatchIsFirst | src/components/CSVImport.jsx:62-67 | the entry found matches and no earlier entry does |
| CsvImport.FirstGroupIsFirst | src/components/CSVImport.jsx:38-67 | the field group found matches the key and no group before it does |
| CsvImport.FindGroup | src/components/CSVImport.jsx:62-67 | the `for ... of` scan with `break` stops at the first matching group |
| CsvImport.MapToPatient | src/components/CSVImport.jsx:37-71 | each column, in row order, is written to the first field group it matches, over the default patient |
| CsvImport.MappedPatient | src/components/CSVImport.jsx:37-71 | every key of the default patient is a key of the mapped patient |
| CsvImport.MappedStep | src/components/CSVImport.jsx:59-68 | one more column updates the patient by that column alone |
| CsvImport.EmailOk | src/components/CSVImport.jsx:83 | the computed test holds iff the text matches the email pattern |
| CsvImport.Issues | src/components/CSVImport.jsx:74-88 | a patient has at most two issues |
| CsvImport.IssuesMeaning | src/components/CSVImport.jsx:77-85 | name required iff the name is blank; email required iff the email is blank; invalid iff non-blank and not matching; none iff both fields are good |
| CsvImport.BlankIsNoEmail | src/components/CSVImport.jsx:81-85 | a blank email never matches the pattern |
| CsvImport.PatientErrors | src/components/CSVImport.jsx:74-88 | one message per issue, at most two |
| CsvImport.PatientErrorsMessages | src/components/CSVImport.jsx:78-84 | a row's messages are exactly the messages of its issues |
| CsvImport.MessagesDiffer | src/components/CSVImport.jsx:78-84 | two messages of one row are equal iff their issues are |
| CsvImport.Patients | src/components/CSVImport.jsx:114 | one patient per row |
| CsvImport.ValidateAll | src/components/CSVImport.jsx:115-120 | the loop collects every row's messages, rows in order |
| CsvImport.Importer.constructor | src/components/CSVImport.jsx:5-8 | the component starts on the given store with no preview and no errors |
| CsvImport.Importer.LoadFile | src/components/CSVImport.jsx:90-127 | a non-`.csv` name changes nothing; no rows gives "CSV file is empty or invalid"; otherwise the preview is the mapped rows and the errors are their messages |
| CsvImport.Importer.HandleImport | src/components/CSVImport.jsx:153-174 | no or empty preview, or errors and a declined confirmation, change nothing; otherwise the preview is imported into the store and the component is reset |
| CsvImport.PreviousConsultationsStayZero | src/components/CSVImport.jsx:38-56 | no column can reach `previousConsultations`: it stays 0 |
| CsvImport.DefaultKeysKept | src/components/CSVImport.jsx:48-68 | mapping only adds keys: every default key is kept |
| CsvImport.UnmatchedRowGivesDefault | src/components/CSVImport.jsx:48-68 | a row whose columns match no field gives the default patient |
| CsvImport.InsuranceIdHeaderLandsInInsurance | src/components/CSVImport.jsx:43-66 | an "insurance id" column is written to `insurance`, because the earlier `insurance` names match first |
| CsvImport.MemberIdReachesInsuranceIdGroup | src/components/CSVImport.jsx:44-66 | a "member id" column reaches the `insuranceid` group |
| CsvImport.InsuranceIdGroupWritesSeparateKey | src/components/CSVImport.jsx:44-64 | that group writes a new key "insuranceid", while the patient's `insuranceId` stays "" |
| CsvImport.IntendedFieldsAreDefaultKeys | src/components/CSVImport.jsx:44-57 | under the intended map every field written is a key of the default patient |
| CsvImport.IntendedKeepsDefaultKeys | src/components/CSVImport.jsx:37-71 | under the intended map the mapped patient has exactly the default keys |
| CsvImport.IntendedMemberIdFillsInsuranceId | src/components/CSVImport.jsx:37-71 | under the intended map a "member id" column fills `insuranceId` and no `insuranceid` key appears |
| CsvImport.DefaultLacksInsuranceid | src/components/CSVImport.jsx:48-57 | the default patient spells the field `insuranceId` and has no `insuranceid` |
| CsvImport.EmptyHeaderOverwritesName | src/components/CSVImport.jsx:63-64 | a column with an empty header matches every group's names, so it is written to `name` |
| CsvImport.DigitKeysMatchNothing | src/components/CSVImport.jsx:59-67 | an all-digit key, which `Object.keys` would list first, matches no field, so key order does not matter |
| CsvImport.FlattenBound | src/components/CSVImport.jsx:117-120 | parts of at most m messages give at most m per part in all |
| CsvImport.FlattenEmpty | src/components/CSVImport.jsx:117-120 | the concatenation is empty iff every part is |
| CsvImport.AllErrorsLength | src/components/CSVImport.jsx:115-120 | an import has at most two messages per row |
| CsvImport.AllErrorsEmpty | src/components/CSVImport.jsx:115-122 | an import has no messages iff no row has any |
| PaymentForm.Form.constructor | src/components/PaymentForm.jsx:4-11 | the form starts empty, not processing, with the given amount |
| PaymentForm.Form.OnCardNumberChange | src/components/PaymentForm.jsx:128 | the card number becomes the sanitised input; nothing else changes |
| PaymentForm.Form.OnExpiryChange | src/components/PaymentForm.jsx:143-149 | the expiry becomes the input's expiry text; nothing else changes |
| PaymentForm.Form.OnCvvChange | src/components/PaymentForm.jsx:162 | the CVV becomes the sanitised input; nothing else changes |
| PaymentForm.Form.OnNameChange | src/components/PaymentForm.jsx:177 | the name is stored as typed; nothing else changes |
| PaymentForm.Form.HandleCardPayment | src/components/PaymentForm.jsx:30-50 | the payment is refused, with nothing changed, iff a card detail is empty; otherwise it completes with the card record for the form's amount |
| PaymentForm.Form.HandleStripeLink | src/components/PaymentForm.jsx:13-28 | the one-click payment always completes, with no card digits in its record |
| PaymentForm.CardSanitizer | src/components/PaymentForm.jsx:128 | the card number keeps the input's digits in order, at most 16, and all of them iff there are no more than 16 |
| PaymentForm.SanitizeCard | src/components/PaymentForm.jsx:128 | the card number is at most 16 digits, and an input of at most 16 digits is kept as is |
| PaymentForm.CardSanitizerIdempotent | src/components/PaymentForm.jsx:128 | sanitising a sanitised number changes nothing |
| PaymentForm.CvvSanitizer | src/components/PaymentForm.jsx:162 | the CVV keeps the input's digits in order, at most 4, and sanitising twice equals once |
| PaymentForm.SanitizeCvv | src/components/PaymentForm.jsx:162 | the CVV is at most 4 digits, and an input of at most 4 digits is kept as is |
| PaymentForm.ExpiryShape | src/components/PaymentForm.jsx:143-149 | at most 5 characters; below two digits just the digits, else two digits, a slash and at most two more; its digits are the input's first four |
| PaymentForm.ExpiryText | src/components/PaymentForm.jsx:143-149 | at most 5 characters; with fewer than two digits only digits; otherwise two digits, a slash and digits |
| PaymentForm.ExpiryDigits | src/components/PaymentForm.jsx:146 | the digits of the `MM/YY` text are the first four digits |
| PaymentForm.ExpiryIdempotent | src/components/PaymentForm.jsx:143-149 | feeding the stored expiry back through the handler leaves it unchanged |
| PaymentForm.ButtonAgreesWithGuard | src/components/PaymentForm.jsx:185 | the card button is disabled iff processing or a detail is empty, so an enabled button always passes the guard of line 31 |
| PaymentForm.CardRecordFields | src/components/PaymentForm.jsx:41-47 | the card record says "Credit Card" and "Down Payment", carries the amount, and ends in the last four digits of the number (all of it if shorter) |
| PatientPayment.SavedMethods | src/screens/PatientPayment.jsx:22 | the offered methods are exactly the stored ones of the chosen type |
| PatientPayment.Checkout.constructor | src/screens/PatientPayment.jsx:9-19 | the checkout starts on credit, with nothing selected or typed, and paid iff the session payment is completed |
| PatientPayment.Checkout.HandlePayment | src/screens/PatientPayment.jsx:24-79 | a refused payment changes nothing, `processing` included; otherwise the typed method is handed to the save action when asked for, and the payment completes for the down payment with the type's label |
| PatientPayment.Checkout.HandleRemoveMethod | src/screens/PatientPayment.jsx:81-89 | a confirmed removal dispatches the action, and clears the selection and switches to a new card when it was the selected one; a declined one changes nothing; `processing` and the payment fields are untouched |
| PatientPayment.SavedMethodsInOrder | src/screens/PatientPayment.jsx:22 | the filter works piecewise, so the offered methods keep their stored order |
| PatientPayment.SelectionGuard | src/screens/PatientPayment.jsx:26-34 | with saved methods and no new card a selection is required, and once one is selected the typed details are not checked |
| PatientPayment.RequiredFields | src/screens/PatientPayment.jsx:34-46 | a credit payment needs card number, expiry and CVV; any other type routing and account numbers |
| PatientPayment.BrandByFirstDigit | src/screens/PatientPayment.jsx:59 | a card starting with 4 is Visa, with 5 Mastercard, anything else Card |
| PatientPayment.Brand | src/screens/PatientPayment.jsx:59 | the brand is Visa, Mastercard or Card, and Card for an empty number |
| PatientPayment.SavedMethodIsMasked | src/screens/PatientPayment.jsx:53-67 | a saved card keeps at most its last four digits, a bank account is four stars and at most its last four digits, and the type follows the chosen one |
| PatientPayment.NewMethod | src/screens/PatientPayment.jsx:53-67 | the saved method has the given id, is credit iff credit was chosen and ach otherwise, and carries card details iff it is credit |
| PatientPayment.LabelFollowsType | src/screens/PatientPayment.jsx:72 | the label is "Credit Card" iff the type is credit, "ACH" otherwise |
| PatientPayment.MethodLabel | src/screens/PatientPayment.jsx:72 | the label is "Credit Card" or "ACH", and "Credit Card" iff the type is credit |
| PatientPayment.CheckoutCompletes | src/screens/PatientPayment.jsx:70-75 | completing marks the session payment completed under that label and appends one completed record for the down payment |
| PaymentScreen.SessionPayment | src/screens/PaymentScreen.jsx:23 | the session payment is shown iff it is completed and has a non-empty transaction id |
| PaymentScreen.FindPatient | src/screens/PaymentScreen.jsx:47 | a found patient is in the directory with that id; none is found iff no directory entry has it |
| PaymentScreen.Names | src/screens/PaymentScreen.jsx:112-117 | the group names are exactly the patient names of the payments |
| PaymentScreen.GroupByPatient | src/screens/PaymentScreen.jsx:111-118 | the loop builds one group per patient name, in order of first appearance, each holding exactly that patient's payments in order |
| PaymentScreen.TurnIsPush | src/screens/PaymentScreen.jsx:113-116 | the two writes of one loop turn append the payment to its patient's group, creating it if new |
| PaymentScreen.SessionPaymentLast | src/screens/PaymentScreen.jsx:20-37 | the demo history comes first; the session payment, when shown, comes last as a completed down payment of the consultation's amount, keyed by its transaction id |
| PaymentScreen.FiltersExact | src/screens/PaymentScreen.jsx:59-71 | each filter keeps exactly the payments whose field equals the chosen value, in order, each as often as it occurs, and works piecewise over concatenation |
| PaymentScreen.FilteredMeaning | src/screens/PaymentScreen.jsx:40-71 | a shown payment is a listed one that passes the search when the query is not blank and every filter that is not "all"; every such payment is shown, as often as it is listed, in list order |
| PaymentScreen.Filtered | src/screens/PaymentScreen.jsx:40-71 | the shown payments are listed ones and no more numerous than the list |
| PaymentScreen.NoFilterShowsAll | src/screens/PaymentScreen.jsx:44-69 | a blank query and every filter at "all" show the whole list |
| PaymentScreen.SearchIgnoresCase | src/screens/PaymentScreen.jsx:45-54 | queries equal up to case find the same payments |
| PaymentScreen.NameMatchIsFound | src/screens/PaymentScreen.jsx:49 | a payment whose patient name contains the query, in any case, is found |
| PaymentScreen.TotalCountsCompletedOnly | src/screens/PaymentScreen.jsx:139 | the total adds up exactly the amounts of the completed payments |
| PaymentScreen.StatusCountsBounded | src/screens/PaymentScreen.jsx:140-142 | the completed, pending and failed counts add up to at most the number shown |
| PaymentScreen.GroupedMeaning | src/screens/PaymentScreen.jsx:111-118 | the groups are keyed by the names in order of first appearance, each holding exactly that name's payments, in order |
| PaymentScreen.NamesDistinct | src/screens/PaymentScreen.jsx:113-114 | no patient gets two groups |
| PaymentScreen.EachPaymentInOneGroup | src/screens/PaymentScreen.jsx:106-119 | every shown payment is in exactly one group: its patient's, or "All Payments" when not grouping |
| PaymentScreen.SumByNameCovers | src/screens/PaymentScreen.jsx:139 | over distinct names covering every payment, the per-name totals add up to the whole total |
| PaymentScreen.GroupTotalsAreByName | src/screens/PaymentScreen.jsx:457 | the group totals are the per-name completed totals |
| PaymentScreen.GroupTotals | src/screens/PaymentScreen.jsx:457 | names with no group add nothing: the total is 0 when none of the names has a group |
| PaymentScreen.GroupTotalsAddUp | src/screens/PaymentScreen.jsx:457 | the group totals on the page add up to the completed total of line 139, grouped or not |
| LedgerScreen.SessionFlags | src/screens/LedgerScreen.jsx:27-51 | at most three session entries are added |
| LedgerScreen.AssembleEntries | src/screens/LedgerScreen.jsx:23-63 | copying the log and unshifting validation, then signature, then payment gives the payment, signature and validation entries in front of the log |
| LedgerScreen.Insert | src/screens/LedgerScreen.jsx:69-74 | inserting into a strictly sorted list keeps it strictly sorted and adds exactly that value |
| LedgerScreen.UniqueSorted | src/screens/LedgerScreen.jsx:68-74 | the set-then-sort list is strictly sorted and holds exactly the given values |
| LedgerScreen.ActionColorOrder | src/screens/LedgerScreen.jsx:15-21 | each badge colour is given iff its keyword is in the action and no earlier keyword is |
| LedgerScreen.ActionColor | src/screens/LedgerScreen.jsx:15-21 | the classes are one of the five badge colours, and grey iff the action contains none of the four keywords |
| LedgerScreen.EntryCount | src/screens/LedgerScreen.jsx:23-63 | the ledger holds the audit log plus one entry per set flag |
| LedgerScreen.EntryOrder | src/screens/LedgerScreen.jsx:27-61 | the session entries come first, payment before signature before validation, and the log follows unchanged |
| LedgerScreen.BelowIrreflexive | src/screens/LedgerScreen.jsx:69-74 | no string sorts before itself |
| LedgerScreen.BelowTransitive | src/screens/LedgerScreen.jsx:69-74 | the default string order is transitive |
| LedgerScreen.BelowTotal | src/screens/LedgerScreen.jsx:69-74 | two different strings are ordered one way or the other |
| LedgerScreen.BelowAsymmetric | src/screens/LedgerScreen.jsx:69-74 | two strings are never ordered both ways |
| LedgerScreen.SortedListsAgree | src/screens/LedgerScreen.jsx:69-74 | two strictly sorted lists with the same values are equal |
| LedgerScreen.UniqueListsExact | src/screens/LedgerScreen.jsx:67-75 | the filter lists hold each value found in the entries once, sorted, and depend only on which values occur |
| LedgerScreen.FilteredMeaning | src/screens/LedgerScreen.jsx:78-109 | a shown entry is a ledger entry that passes the search when the query is not blank and equals each chosen filter; every such entry is shown, as often as it occurs, in ledger order |
| LedgerScreen.Filtered | src/screens/LedgerScreen.jsx:78-109 | the shown entries are ledger entries and no more numerous than the ledger |
| LedgerScreen.SearchIgnoresCase | src/screens/LedgerScreen.jsx:83-92 | queries equal up to case find the same entries |
| LedgerScreen.ActionMatchIsFound | src/screens/LedgerScreen.jsx:86 | an entry whose action contains the query, in any case, is found |
| TreatmentBreakdown.EditItems | src/components/TreatmentBreakdown.jsx:13-20 | an edit keeps the number of items |
| TreatmentBreakdown.EditItem | src/components/TreatmentBreakdown.jsx:13-20 | an edit keeps the id and kind and the fields it does not set, and the total becomes quantity times unit price |
| TreatmentBreakdown.Breakdown.constructor | src/components/TreatmentBreakdown.jsx:4-6 | the items start as the given breakdown, not editing |
| TreatmentBreakdown.Breakdown.Sync | src/components/TreatmentBreakdown.jsx:8-10 | a new breakdown replaces the items |
| TreatmentBreakdown.Breakdown.ToggleEditing | src/components/TreatmentBreakdown.jsx:62 | the editing flag flips and the items are kept |
| TreatmentBreakdown.Breakdown.HandleItemChange | src/components/TreatmentBreakdown.jsx:12-25 | the items with that id are edited, and the new list is published |
| TreatmentBreakdown.Breakdown.HandleAddItem | src/components/TreatmentBreakdown.jsx:27-41 | one new line is appended, and the new list is published |
| TreatmentBreakdown.Breakdown.HandleRemoveItem | src/components/TreatmentBreakdown.jsx:43-49 | the items with that id are removed, and the new list is published |
| TreatmentBreakdown.EditScope | src/components/TreatmentBreakdown.jsx:13-20 | only items with that id change; they keep id and kind, take the new value in the edited field and keep the others; the rest stay in place |
| TreatmentBreakdown.EditedTotal | src/components/TreatmentBreakdown.jsx:15-16 | an edited item's total is its quantity times its unit price; an unparsable number counts as 0 |
| TreatmentBreakdown.EditUnknownId | src/components/TreatmentBreakdown.jsx:13-20 | editing an id no item has leaves the list as it was |
| TreatmentBreakdown.AddKeepsTotal | src/components/TreatmentBreakdown.jsx:28-53 | the new line is an empty service at quantity 1 and price 0, so the total is unchanged and the services gain it at the end |
| TreatmentBreakdown.RemoveExact | src/components/TreatmentBreakdown.jsx:44 | removal keeps exactly the items with another id, in order, each as often as it occurs, and works piecewise over concatenation |
| TreatmentBreakdown.RemoveItems | src/components/TreatmentBreakdown.jsx:44 | the remaining items are the items with another id, and no more numerous than before |
| TreatmentBreakdown.TotalAmount | src/components/TreatmentBreakdown.jsx:51 | with no negative line total, the sum is not negative |
| TreatmentBreakdown.RemoveSplitsTotal | src/components/TreatmentBreakdown.jsx:44-51 | removing takes the removed items' totals, and only those, off the total |
| TreatmentBreakdown.MissingTotalIsZero | src/components/TreatmentBreakdown.jsx:51 | an item without a total counts as 0 |
| TreatmentBreakdown.SectionsDisjoint | src/components/TreatmentBreakdown.jsx:53-54 | no item is both a service and a material, and the two sections hold at most all the items |
| PatientChat.FirstTopic | src/screens/PatientChat.jsx:34-53 | the topic found always names one of the seven replies |
| PatientChat.ClinicResponse | src/screens/PatientChat.jsx:31-54 | the reply is one of the seven canned replies |
| PatientChat.Chat.constructor | src/screens/PatientChat.jsx:6-60 | the chat opens with the three initial messages, an empty input and nobody typing |
| PatientChat.Chat.SetInput | src/screens/PatientChat.jsx:59 | the input takes the typed text; the messages are kept |
| PatientChat.Chat.HandleSendMessage | src/screens/PatientChat.jsx:72-100 | a blank input changes nothing; otherwise the trimmed text and then the reply to the untrimmed text are appended, the input is cleared and typing ends |
| PatientChat.PaymentGroup | src/screens/PatientChat.jsx:34 | the payment group matches iff the text contains "payment", "pay" or "cost" |
| PatientChat.ScheduleGroup | src/screens/PatientChat.jsx:37 | the schedule group matches iff the text contains "appointment", "schedule" or "visit" |
| PatientChat.TreatmentGroup | src/screens/PatientChat.jsx:40 | the treatment group matches iff the text contains "treatment", "braces" or "invisalign" |
| PatientChat.InsuranceGroup | src/screens/PatientChat.jsx:43 | the insurance group matches iff the text contains "insurance" or "coverage" |
| PatientChat.GreetingGroup | src/screens/PatientChat.jsx:46 | the greeting group matches iff the text contains "hello", "hi" or "help" |
| PatientChat.ThanksGroup | src/screens/PatientChat.jsx:49 | the thanks group matches iff the text contains "thank" or "thanks" |
| PatientChat.ResponseByGroups | src/screens/PatientChat.jsx:31-54 | the reply is that of the first group matching the lower-cased message, the default when none does |
| PatientChat.ReplyByFirstTopic | src/screens/PatientChat.jsx:31-54 | the reply is the one at the position of the first group found |
| PatientChat.ReplyAt | src/screens/PatientChat.jsx:35-53 | the replies are listed in the order of the groups, the default last |
| PatientChat.RepliesDistinct | src/screens/PatientChat.jsx:35-53 | the seven replies are different texts |
| PatientChat.ReplyIdentifiesTopic | src/screens/PatientChat.jsx:31-54 | a reply is given iff its group is the first one found |
| PatientChat.InnerHiGreets | src/screens/PatientChat.jsx:46-47 | "hi" inside any word greets unless an earlier group matches |
| PatientChat.ThisIsAGreeting | src/screens/PatientChat.jsx:32-47 | "this" is answered with the greeting |
| PatientChat.NoEarlierGroupInThis | src/screens/PatientChat.jsx:34-45 | "this" matches none of the first four groups |
| PatientChat.Floors | src/screens/PatientChat.jsx:106-113 | the whole-unit thresholds on minutes, hours and days are thresholds on milliseconds |
| PatientChat.TimeBuckets | src/screens/PatientChat.jsx:102-115 | under a minute (or in the future) "Just now"; then whole minutes, hours with a plural "s" above 1, days likewise; from seven days the formatted date |
| PatientChat.FormatMessageTime | src/screens/PatientChat.jsx:102-115 | under 60,000 ms "Just now"; from seven days the formatted date; in between a text ending in " ago" |
| PatientChat.OneHour | src/screens/PatientChat.jsx:112 | exactly one hour reads "1 hour ago", without the plural |
| Seqs.Where | src/screens/PaymentScreen.jsx:59-71 | `filter` keeps exactly the elements that pass and is no longer than its input |
| Seqs.WhereSnoc | src/screens/LedgerScreen.jsx:96-109 | filtering a list with one more element appends that element iff it passes |
| Seqs.WhereConcat | src/screens/LedgerScreen.jsx:96-109 | filtering a concatenation is concatenating the filtered parts, so the kept elements stay in order |
| Seqs.WhereCounts | src/screens/PaymentScreen.jsx:59-71 | each element that passes is kept as often as it occurs, and each that fails not at all |
| Seqs.WhereIf | src/screens/PaymentScreen.jsx:59-71 | a filter switched off by "all" keeps everything; switched on it keeps exactly the elements that pass |
| Seqs.WhereIfFacts | src/screens/PaymentScreen.jsx:59-71 | a switchable filter also works piecewise over concatenation and keeps each passing element as often as it occurs |
| Text.TrimIsInfix | src/components/CSVImport.jsx:15 | `trim` keeps the infix that neither starts nor ends with white space, and cuts only white space before and after it |

## Left out

- Locale formatting: `formatDate` and `toLocaleDateString` are not modelled. Where a date appears in text, the text is a parameter.
- `RulesEngine.FormatUSD`: written out for `en-US` currency text (a sign, `$`, thousands commas, two decimals, half-away-from-zero rounding). `Intl` details beyond that are not modelled, such as negative zero or locale data updates.
- Floating point: money is exact `real`. `parseFloat` and `parseInt` results are parameters, as `Option` values where NaN is possible.
- `MockAI.GetObjectionSuggestion`: the `* 0.5`, `* 0.6`, `* 0.7`, `* 0.75`, `* 1.2` and `* 1.5` factors are computed exactly in `real` arithmetic. Binary floating point can round those products differently, so only the bounds and the cost-branch formula are proved about them.
- The explanation and script texts of the objection suggestion are not modelled.
- PDF generation, signature capture, the deal-speed and signature-status timers, and the display-only components are outside the modelled core.
- `COMPLETE_PAYMENT`: the elapsed minutes since `payment.startTime` read the clock and are not stored by the model.
- The saved card's `savedAt` time and generated id are parameters.
- Sorting: the payment, ledger, follow-up queue and agreement lists are sorted with comparators that never return 0, or with `localeCompare`. Those are not total orders, so the models stop at the filtered list and promise no order after the sort.
- The follow-up queue's and the agreement list's free-text search filters are not modelled. Only the status and response filters are.
- `Text.Lower` and `Text.Capitalize` (used for the follow-up queue's status text): case mapping covers ASCII letters only.
- String order in `uniqueActions` and `uniqueUsers` is by character code, the default `sort` order for ASCII text.
- Timers: every `setTimeout` delay (payment processing, AI suggestion, CSV import, chat reply) is collapsed into one synchronous step. Interleavings with other events during a delay are not modelled.
- `CsvImport`: reading the file is a parameter, the file text. The `try`/`catch` around parsing is not modelled, because the modelled parser cannot throw.
- `Object.keys` puts integer-like keys first. The CSV row is an ordered dictionary in header order, and a lemma shows that the patient mapped from it does not depend on that order.
- AdminPanel: the numeric inputs' `parseFloat`/`parseInt` of empty or non-numeric text are parameters of type `real` and `int`. NaN is not modelled, so the guard is proved for numbers only.
- Alerts, `navigate` calls, `window.confirm` dialogs and React effect wiring are plumbing. A confirmation is a boolean parameter, and an effect is a method the caller runs when its inputs change.
- PatientChat: message ids and time stamps come from the clock and are parameters. The reply is chosen from the untrimmed input, as the source does.
- PaymentScreen: display-only record fields (the session record's fixed `cardLast4` of "4242", the method label in the table) are carried as given, without properties.
- LedgerScreen: the down-payment amount text in the payment entry's details is a parameter.
- The demo data (default rules, mock agreements, demo patients, initial queues, audit log, payment history) is a parameter everywhere.
- AgreementScreen.StatusFilter: its own contract states which agreements are kept; list order and multiplicity are proved beside it, in `AgreementScreen.StatusFilterInOrder`.
- FollowUpQueueScreen.FilterQueue: its own contract states which items are kept; queue order and multiplicity are proved beside it, in `FollowUpQueueScreen.FilterQueueInOrder`.
- PaymentForm.Form.HandleCardPayment and PaymentForm.Form.HandleStripeLink take the transaction id as an unconstrained parameter. The source builds it from `Math.random()` and `Date.now()` (src/components/PaymentForm.jsx:19 and :40), so its format and uniqueness are not modelled.
- PatientPayment.Checkout.HandlePayment takes the transaction id as an unconstrained parameter. The source takes it from `generateTransactionId()` (src/screens/PatientPayment.jsx:50); its format is proved separately in `Helpers.TransactionIdFormat`, but the method does not require it.

## Findings

| source | as written | input that shows it | evidently intended | confidence | as-written member | corrected member |
|---|---|---|---|---|---|---|
| src/components/CSVImport.jsx:44-57 | the sixth field group writes the key `insuranceid`, while the default patient spells the field `insuranceId`, so a matched column adds a ninth key and `insuranceId` stays "" | a header "Member ID" with value "M-77" | the column fills `insuranceId` | high; not executed | CsvImport.InsuranceIdGroupWritesSeparateKey | CsvImport.IntendedMemberIdFillsInsuranceId |
| src/screens/ConsultationScreen.jsx:26-35 | the screen checks the stored plan against the gross `totalCost`, while the embedded plan editor checks against the cost net of insurance | total 5,000, coverage 4,500, down 1,000 over 12 months under the example rules | the screen checks against the patient cost, as the editor does, so both show the same violations | medium; not executed | ConsultationScreen.CostBasesDisagree | ConsultationScreen.NetCheckAgreesWithEditor |
| src/components/PaymentPlanEditor.jsx:55-57 | a committed down payment is checked against the local installment count. After a blocked installments keystroke that count differs from the stored one, and the re-sync effect (lines 15-18) does not recompute the errors | min 500, max 24 months, cost 5,000, stored 1,000 over 12; type 30 months (blocked), then a down payment of 2,000 | the errors shown are those of the stored plan | medium; not executed | PaymentPlanEditor.StaleInstallmentsInErrors | PaymentPlanEditor.ResyncedDownPaymentErrors |
| src/utils/rulesEngine.js:47-55 | `autoFixPaymentPlan` is not idempotent when `minDownPayment` is negative: the ceiling clamp can bring the down payment to $0, and a second pass then sets it to the negative minimum because zero down is disallowed | min -5, zero down disallowed, total 0, down payment 10 | a repaired plan is left alone by a second repair | low; not executed | RulesEngine.AutoFixNotIdempotentWithNegativeMinimum | RulesEngine.AutoFixIdempotent |
| src/utils/rulesEngine.js:47-52 | with a zero minimum and zero down disallowed, a non-positive down payment is repaired to $0, which revalidation rejects | min 0, zero down disallowed, down payment 0 | the repaired plan passes revalidation | medium; not executed | RulesEngine.RepairGap | RulesEngine.AutoFixPassesWhen |
| src/screens/FollowUpQueueScreen.jsx:17 | the key `${patientId}_${agreementId}` is split on every `_` and its first two parts are kept, so a patient id containing `_` splits into the wrong pair | patient id "p_1", agreement id "a" | the split gives back the pair the key was built from | low; not executed | FollowUpQueueScreen.SplitKeyBreaksOnUnderscore | FollowUpQueueScreen.SplitKeyRoundTrip |
