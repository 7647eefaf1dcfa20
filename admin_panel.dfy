/**
 * The settings panel: the rule editor with its save guard, and the list of payment presets with
 * edit, delete and add.
 */
module AdminPanel {
  import opened Wrappers
  import opened Text
  import opened RulesEngine
  import opened AppContext

  datatype Preset = Preset(id: string, name: string, downPaymentPercent: real, installments: int, description: string)

  /** The fields an edit of a preset may carry; None means "not in the update". */
  datatype PresetPatch = PresetPatch(
    name: Option<string>,
    downPaymentPercent: Option<real>,
    installments: Option<int>,
    description: Option<string>)

  function MergePreset(p: Preset, u: PresetPatch): Preset {
    Preset(p.id,
      if u.name.Some? then u.name.value else p.name,
      if u.downPaymentPercent.Some? then u.downPaymentPercent.value else p.downPaymentPercent,
      if u.installments.Some? then u.installments.value else p.installments,
      if u.description.Some? then u.description.value else p.description)
  }

  /** `presets.map(p => p.id === id ? { ...p, ...updates } : p)`. */
  function EditPreset(presets: seq<Preset>, id: string, u: PresetPatch): (r: seq<Preset>)
    ensures |r| == |presets|
  {
    seq(|presets|, k requires 0 <= k < |presets| => if presets[k].id == id then MergePreset(presets[k], u) else presets[k])
  }

  function CountId(presets: seq<Preset>, id: string): nat {
    if presets == [] then 0 else (if presets[0].id == id then 1 else 0) + CountId(presets[1..], id)
  }

  /** `presets.filter(p => p.id !== id)`. */
  function DeletePreset(presets: seq<Preset>, id: string): (r: seq<Preset>)
    ensures |r| == |presets| - CountId(presets, id)
    ensures forall p :: p in r ==> p in presets && p.id != id
    ensures forall p :: p in presets && p.id != id ==> p in r
  {
    if presets == [] then []
    else
      var rest := DeletePreset(presets[1..], id);
      assert forall p :: p in presets ==> p == presets[0] || p in presets[1..];
      if presets[0].id == id then rest else [presets[0]] + rest
  }

  /** The preset `handleAddPreset` creates at time `now`. */
  function NewPreset(now: int): Preset {
    Preset("preset-" + IntToString(now), "New Preset", 15.0, 12, "Custom payment plan")
  }

  /** The payload `handleSaveRules` sends: the four edited fields, never `allowZeroDownPayment`. */
  function SavedRules(minDownPayment: real, maxInstallments: int, maxDiscountPercent: real, minMonthlyPayment: real): RulesPatch {
    RulesPatch(Some(minDownPayment), Some(maxInstallments), None, Some(maxDiscountPercent), Some(minMonthlyPayment))
  }

  /** The rejection test of `handleSaveRules`. */
  predicate SaveRejected(minDownPayment: real, maxInstallments: int) {
    minDownPayment < 0.0 || maxInstallments < 1
  }

  class Panel {
    const store: Store
    var minDownPayment: real
    var maxInstallments: int
    var maxDiscountPercent: real
    var minMonthlyPayment: real
    var presets: seq<Preset>
    var editingPreset: Option<string>

    /** The inputs start from the stored rules; a falsy discount or monthly minimum shows 10 or 100. */
    constructor (store: Store, initialPresets: seq<Preset>)
      ensures this.store == store && presets == initialPresets && editingPreset == None
      ensures minDownPayment == store.state.rules.minDownPayment
      ensures maxInstallments == store.state.rules.maxInstallmentMonths
      ensures maxDiscountPercent == OrNumber(Some(store.state.rules.maxDiscountPercent), 10.0)
      ensures minMonthlyPayment == OrNumber(Some(store.state.rules.minMonthlyPayment), 100.0)
    {
      this.store := store;
      minDownPayment := store.state.rules.minDownPayment;
      maxInstallments := store.state.rules.maxInstallmentMonths;
      maxDiscountPercent := OrNumber(Some(store.state.rules.maxDiscountPercent), 10.0);
      minMonthlyPayment := OrNumber(Some(store.state.rules.minMonthlyPayment), 100.0);
      presets := initialPresets;
      editingPreset := None;
    }

    /** `handleSaveRules`: a negative minimum or a maximum below one month saves nothing. */
    method HandleSaveRules()
      modifies store
      ensures SaveRejected(minDownPayment, maxInstallments) ==> store.state == old(store.state)
      ensures !SaveRejected(minDownPayment, maxInstallments) ==>
        store.state == Reduce(old(store.state),
          UpdateRules(SavedRules(minDownPayment, maxInstallments, maxDiscountPercent, minMonthlyPayment)))
    {
      if minDownPayment < 0.0 || maxInstallments < 1 {
        return;
      }
      store.Dispatch(UpdateRules(SavedRules(minDownPayment, maxInstallments, maxDiscountPercent, minMonthlyPayment)));
    }

    /** `handleSavePreset`: merge the update into the preset with that id and close the editor. */
    method HandleSavePreset(presetId: string, updates: PresetPatch)
      modifies this
      ensures presets == EditPreset(old(presets), presetId, updates) && editingPreset == None
      ensures minDownPayment == old(minDownPayment) && maxInstallments == old(maxInstallments)
      ensures maxDiscountPercent == old(maxDiscountPercent) && minMonthlyPayment == old(minMonthlyPayment)
    {
      presets := EditPreset(presets, presetId, updates);
      editingPreset := None;
    }

    /** `handleDeletePreset`, with the answer to the confirmation dialog passed in. */
    method HandleDeletePreset(presetId: string, confirmed: bool)
      modifies this
      ensures presets == (if confirmed then DeletePreset(old(presets), presetId) else old(presets))
      ensures editingPreset == old(editingPreset)
      ensures minDownPayment == old(minDownPayment) && maxInstallments == old(maxInstallments)
      ensures maxDiscountPercent == old(maxDiscountPercent) && minMonthlyPayment == old(minMonthlyPayment)
    {
      if confirmed {
        presets := DeletePreset(presets, presetId);
      }
    }

    /** `handleAddPreset`: append the default preset and open it for editing. */
    method HandleAddPreset(now: int)
      modifies this
      ensures presets == old(presets) + [NewPreset(now)]
      ensures editingPreset == Some(NewPreset(now).id)
      ensures minDownPayment == old(minDownPayment) && maxInstallments == old(maxInstallments)
      ensures maxDiscountPercent == old(maxDiscountPercent) && minMonthlyPayment == old(minMonthlyPayment)
    {
      var newPreset := NewPreset(now);
      presets := presets + [newPreset];
      editingPreset := Some(newPreset.id);
    }
  }

  // ---------------------------------------------------------------- properties

  /**
   * Saving rules overwrites exactly the four edited fields; the zero-down flag, which the panel
   * only displays, keeps whatever value it had.
   */
  lemma SaveKeepsZeroDownFlag(s: AppState, min: real, max: int, discount: real, monthly: real)
    ensures var r := Reduce(s, UpdateRules(SavedRules(min, max, discount, monthly))).rules;
      && r.allowZeroDownPayment == s.rules.allowZeroDownPayment
      && r.minDownPayment == min && r.maxInstallmentMonths == max
      && r.maxDiscountPercent == discount && r.minMonthlyPayment == monthly
  {
    UpdateRulesMerges(s, SavedRules(min, max, discount, monthly));
  }

  /**
   * Rules that pass the save guard never hit the repair's weak spots: the repair is idempotent
   * and its installments lie within the allowed range.
   */
  lemma AcceptedRulesRepairCleanly(s: AppState, min: real, max: int, discount: real, monthly: real, d: real, i: int, t: real)
    requires !SaveRejected(min, max)
    ensures var rules := Reduce(s, UpdateRules(SavedRules(min, max, discount, monthly))).rules;
      var p := AutoFix(d, i, t, rules);
      && AutoFix(p.downPayment, p.installments, t, rules) == p
      && 1 <= p.installments <= max
  {
    var rules := Reduce(s, UpdateRules(SavedRules(min, max, discount, monthly))).rules;
    SaveKeepsZeroDownFlag(s, min, max, discount, monthly);
    AutoFixIdempotent(d, i, t, rules);
    InstallmentClamp(i, rules);
  }

  /** A preset edit touches only the presets with that id and never changes an id. */
  lemma EditPresetScope(presets: seq<Preset>, id: string, u: PresetPatch, k: int)
    requires 0 <= k < |presets|
    ensures var r := EditPreset(presets, id, u);
      && r[k].id == presets[k].id
      && (presets[k].id != id ==> r[k] == presets[k])
      && (presets[k].id == id ==> r[k] == MergePreset(presets[k], u))
  {
  }

  /** An empty update leaves every preset as it was. */
  lemma EmptyEditChangesNothing(presets: seq<Preset>, id: string)
    ensures EditPreset(presets, id, PresetPatch(None, None, None, None)) == presets
  {
  }

  /** Deleting works piecewise, so the kept presets stay in their original order. */
  lemma {:induction false} DeletePreservesOrder(a: seq<Preset>, b: seq<Preset>, id: string)
    ensures DeletePreset(a + b, id) == DeletePreset(a, id) + DeletePreset(b, id)
  {
    if a == [] {
      assert a + b == b;
    } else {
      assert (a + b)[1..] == a[1..] + b;
      DeletePreservesOrder(a[1..], b, id);
    }
  }

  /** Deleting an id that is not listed keeps the list; deleting twice is deleting once. */
  lemma {:induction false} DeleteAbsentAndTwice(presets: seq<Preset>, id: string)
    ensures CountId(presets, id) == 0 ==> DeletePreset(presets, id) == presets
    ensures DeletePreset(DeletePreset(presets, id), id) == DeletePreset(presets, id)
  {
    if presets != [] {
      DeleteAbsentAndTwice(presets[1..], id);
      var rest := DeletePreset(presets[1..], id);
      if presets[0].id != id {
        assert ([presets[0]] + rest)[1..] == rest;
      }
    }
  }

  /** Adding one preset grows the list by one at the end, with 15% down over 12 months. */
  lemma AddPresetAppends(presets: seq<Preset>, now: int)
    ensures var r := presets + [NewPreset(now)];
      && |r| == |presets| + 1 && r[..|presets|] == presets
      && r[|presets|].downPaymentPercent == 15.0 && r[|presets|].installments == 12
      && r[|presets|].id[..7] == "preset-"
  {
  }
}
