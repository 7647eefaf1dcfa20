/**
 * The editable treatment breakdown: line-item edits that keep each item's total equal to quantity
 * times unit price, adding and removing items, the breakdown total and the services/materials
 * split.
 */
module TreatmentBreakdown {
  import opened Wrappers
  import opened Text
  import opened Entities
  import opened Seqs

  /**
   * What an input handler passes to `handleItemChange`. For the numeric fields the input text has
   * already been through `parseFloat`: None stands for NaN.
   */
  datatype ItemEdit = SetName(text: string) | SetQuantity(parsed: Option<real>) | SetUnitPrice(parsed: Option<real>)

  /** `parseFloat(value) || 0`: NaN (and 0) become 0. */
  function NumberOrZero(parsed: Option<real>): real {
    if parsed.Some? then parsed.value else 0.0
  }

  /** `quantity * unitPrice`. */
  function LineTotal(quantity: real, unitPrice: real): real {
    quantity * unitPrice
  }

  /** One edited item: the field takes the value, then `total` is recomputed. */
  function EditItem(item: LineItem, edit: ItemEdit): (r: LineItem)
    ensures r.id == item.id && r.kind == item.kind
    ensures r.total == Some(LineTotal(r.quantity, r.unitPrice))
    ensures !edit.SetName? ==> r.name == item.name
    ensures !edit.SetQuantity? ==> r.quantity == item.quantity
    ensures !edit.SetUnitPrice? ==> r.unitPrice == item.unitPrice
  {
    var updated := match edit {
      case SetName(text) => item.(name := text)
      case SetQuantity(parsed) => item.(quantity := NumberOrZero(parsed))
      case SetUnitPrice(parsed) => item.(unitPrice := NumberOrZero(parsed))
    };
    updated.(total := Some(LineTotal(updated.quantity, updated.unitPrice)))
  }

  /** `items.map(...)`: the items with the given id edited, the others as they were. */
  function EditItems(items: seq<LineItem>, id: string, edit: ItemEdit): (r: seq<LineItem>)
    ensures |r| == |items|
  {
    seq(|items|, k requires 0 <= k < |items| => if items[k].id == id then EditItem(items[k], edit) else items[k])
  }

  /** The line `handleAddItem` appends; the clock reading is passed in. */
  function NewItem(now: int): LineItem {
    LineItem("item-" + IntToString(now), "service", "", 1.0, 0.0, Some(0.0))
  }

  /** The test `item => item.id !== id`. */
  function OtherId(id: string): LineItem -> bool {
    (item: LineItem) => item.id != id
  }

  /** `items.filter(item => item.id !== id)`. */
  function RemoveItems(items: seq<LineItem>, id: string): (r: seq<LineItem>)
    ensures |r| <= |items|
    ensures forall item :: item in r <==> item in items && item.id != id
  {
    Where(items, OtherId(id))
  }

  /** The items with the given id: what a removal drops. */
  function WithId(items: seq<LineItem>, id: string): seq<LineItem> {
    Where(items, (item: LineItem) => item.id == id)
  }

  /** `item.total || 0`. */
  function TotalOrZero(item: LineItem): real {
    if item.total.Some? then item.total.value else 0.0
  }

  /** `totalAmount`. */
  function TotalAmount(items: seq<LineItem>): (sum: real)
    ensures (forall k :: 0 <= k < |items| ==> TotalOrZero(items[k]) >= 0.0) ==> sum >= 0.0
  {
    if items == [] then 0.0 else TotalAmount(items[..|items| - 1]) + TotalOrZero(items[|items| - 1])
  }

  function Services(items: seq<LineItem>): seq<LineItem> {
    Where(items, (item: LineItem) => item.kind == "service")
  }

  function Materials(items: seq<LineItem>): seq<LineItem> {
    Where(items, (item: LineItem) => item.kind == "material")
  }

  /**
   * The component's state. `onBreakdownChange` is modelled by returning the list it is called
   * with; a missing callback changes nothing else.
   */
  class Breakdown {
    var items: seq<LineItem>
    var isEditing: bool
    const readOnly: bool

    constructor (breakdown: seq<LineItem>, readOnly: bool)
      ensures items == breakdown && !isEditing && this.readOnly == readOnly
    {
      items := breakdown;
      isEditing := false;
      this.readOnly := readOnly;
    }

    /** The effect that copies a new `breakdown` prop into the state. */
    method Sync(breakdown: seq<LineItem>)
      modifies this
      ensures items == breakdown && isEditing == old(isEditing)
    {
      items := breakdown;
    }

    method ToggleEditing()
      modifies this
      ensures isEditing == !old(isEditing) && items == old(items)
    {
      isEditing := !isEditing;
    }

    method HandleItemChange(id: string, edit: ItemEdit) returns (published: seq<LineItem>)
      modifies this
      ensures items == EditItems(old(items), id, edit) && published == items
      ensures isEditing == old(isEditing)
    {
      items := EditItems(items, id, edit);
      published := items;
    }

    method HandleAddItem(now: int) returns (published: seq<LineItem>)
      modifies this
      ensures items == old(items) + [NewItem(now)] && published == items
      ensures isEditing == old(isEditing)
    {
      items := items + [LineItem("item-" + IntToString(now), "service", "", 1.0, 0.0, Some(0.0))];
      published := items;
    }

    method HandleRemoveItem(id: string) returns (published: seq<LineItem>)
      modifies this
      ensures items == RemoveItems(old(items), id) && published == items
      ensures isEditing == old(isEditing)
    {
      items := RemoveItems(items, id);
      published := items;
    }
  }

  // ---------------------------------------------------------------- properties

  /**
   * An edit touches only the items with that id, which keep their id and kind, take the new value
   * in the edited field and keep the other fields; the rest stay as they were, in place.
   */
  lemma EditScope(items: seq<LineItem>, id: string, edit: ItemEdit)
    ensures var r := EditItems(items, id, edit);
      forall k :: 0 <= k < |items| ==>
        && (items[k].id != id ==> r[k] == items[k])
        && (items[k].id == id ==>
              && r[k].id == id && r[k].kind == items[k].kind
              && r[k].name == (if edit.SetName? then edit.text else items[k].name)
              && r[k].quantity == (if edit.SetQuantity? then NumberOrZero(edit.parsed) else items[k].quantity)
              && r[k].unitPrice == (if edit.SetUnitPrice? then NumberOrZero(edit.parsed) else items[k].unitPrice))
  {
  }

  /** After an edit the item's total is its quantity times its unit price; an unparsable number is 0. */
  lemma EditedTotal(item: LineItem, edit: ItemEdit)
    ensures var u := EditItem(item, edit);
      && u.total.Some? && u.total.value == u.quantity * u.unitPrice
      && (edit.SetQuantity? && edit.parsed.None? ==> u.quantity == 0.0 && u.total.value == 0.0)
      && (edit.SetUnitPrice? && edit.parsed.None? ==> u.unitPrice == 0.0 && u.total.value == 0.0)
  {
    var u := EditItem(item, edit);
    assert u.total == Some(LineTotal(u.quantity, u.unitPrice));
    if edit.SetQuantity? && edit.parsed.None? {
      assert LineTotal(0.0, u.unitPrice) == 0.0;
    }
    if edit.SetUnitPrice? && edit.parsed.None? {
      assert LineTotal(u.quantity, 0.0) == 0.0;
    }
  }

  /** Editing an id no item has leaves the list as it was. */
  lemma EditUnknownId(items: seq<LineItem>, id: string, edit: ItemEdit)
    requires forall k :: 0 <= k < |items| ==> items[k].id != id
    ensures EditItems(items, id, edit) == items
  {
  }

  /** A new line is an empty service at quantity 1 and price 0, so it leaves the total unchanged. */
  lemma AddKeepsTotal(items: seq<LineItem>, now: int)
    ensures var n := NewItem(now);
      n.kind == "service" && n.name == "" && n.quantity == 1.0 && n.unitPrice == 0.0 && n.total == Some(0.0)
    ensures TotalAmount(items + [NewItem(now)]) == TotalAmount(items)
    ensures Services(items + [NewItem(now)]) == Services(items) + [NewItem(now)]
  {
    assert (items + [NewItem(now)])[..|items|] == items;
  }

  /**
   * Removing keeps exactly the items with another id, each as often as it was listed, and drops
   * the rest; removing from a longer list removes from each part, so the kept items stay in order.
   */
  lemma RemoveExact(items: seq<LineItem>, id: string)
    ensures var r := RemoveItems(items, id);
      && (forall item :: item in r <==> item in items && item.id != id)
      && (forall item :: multiset(r)[item] == if item.id != id then multiset(items)[item] else 0)
      && (forall more :: RemoveItems(items + more, id) == r + RemoveItems(more, id))
  {
    WhereCounts(items, OtherId(id));
    forall more: seq<LineItem> ensures RemoveItems(items + more, id) == RemoveItems(items, id) + RemoveItems(more, id) {
      WhereConcat(items, more, OtherId(id));
    }
  }

  /** Removing an item takes its total, and only its total, off the breakdown total. */
  lemma {:induction false} RemoveSplitsTotal(items: seq<LineItem>, id: string)
    ensures TotalAmount(items) == TotalAmount(RemoveItems(items, id)) + TotalAmount(WithId(items, id))
  {
    if items != [] {
      var init, last := items[..|items| - 1], items[|items| - 1];
      assert items == init + [last];
      RemoveSplitsTotal(init, id);
      RemoveSnoc(init, last, id);
      TotalAmountSnoc(init, last);
      var kept, gone := RemoveItems(init, id), WithId(init, id);
      if last.id == id {
        assert RemoveItems(items, id) == kept;
        assert WithId(items, id) == gone + [last];
        TotalAmountSnoc(gone, last);
      } else {
        assert RemoveItems(items, id) == kept + [last];
        assert WithId(items, id) == gone;
        TotalAmountSnoc(kept, last);
      }
    }
  }

  lemma RemoveSnoc(items: seq<LineItem>, item: LineItem, id: string)
    ensures RemoveItems(items + [item], id) == RemoveItems(items, id) + (if item.id != id then [item] else [])
    ensures WithId(items + [item], id) == WithId(items, id) + (if item.id == id then [item] else [])
  {
    assert (items + [item])[..|items|] == items;
  }

  lemma TotalAmountSnoc(items: seq<LineItem>, item: LineItem)
    ensures TotalAmount(items + [item]) == TotalAmount(items) + TotalOrZero(item)
  {
    assert (items + [item])[..|items|] == items;
  }

  /** A missing total counts as 0. */
  lemma MissingTotalIsZero(items: seq<LineItem>, item: LineItem)
    requires item.total.None?
    ensures TotalAmount(items + [item]) == TotalAmount(items)
  {
    TotalAmountSnoc(items, item);
  }

  /** No item is both a service and a material, and the two sections have no more items than the list. */
  lemma {:induction false} SectionsDisjoint(items: seq<LineItem>)
    ensures forall item :: item in Services(items) ==> item !in Materials(items)
    ensures |Services(items)| + |Materials(items)| <= |items|
  {
    if items != [] {
      var init, last := items[..|items| - 1], items[|items| - 1];
      assert items == init + [last];
      SectionsDisjoint(init);
      assert Services(items) == Services(init) + (if last.kind == "service" then [last] else []);
      assert Materials(items) == Materials(init) + (if last.kind == "material" then [last] else []);
    }
  }
}
