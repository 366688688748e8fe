/** The handlers of the invoice view (components/InvoicePaper.tsx) at the
    level of the whole document: each one builds a new item list or a coerced
    number and hands it to `updateData`, and the totals are derived from the
    document on every render. */
module InvoicePaper {
  import opened Types
  import opened Items
  import opened Totals
  import App

  /** `handleItemChange(id, field, value)`: the rows are edited and no other
      key of the document changes. */
  function HandleItemChange(d: Invoice, id: string, e: ItemEdit): (r: Invoice)
    ensures r.items == EditItems(d.items, id, e)
    ensures forall f :: f != ItemsKey ==> Get(r, f) == Get(d, f)
  {
    App.UpdateData(d, App.SetItems(EditItems(d.items, id, e)))
  }

  /** `addItem()`, with the random identifier supplied by the caller. */
  function AddItem(d: Invoice, newId: string): (r: Invoice)
    ensures r.items == AppendItem(d.items, newId)
    ensures forall f :: f != ItemsKey ==> Get(r, f) == Get(d, f)
  {
    App.UpdateData(d, App.SetItems(AppendItem(d.items, newId)))
  }

  /** `removeItem(id)`. */
  function RemoveItem(d: Invoice, id: string): (r: Invoice)
    ensures r.items == RemoveById(d.items, id)
    ensures forall f :: f != ItemsKey ==> Get(r, f) == Get(d, f)
  {
    App.UpdateData(d, App.SetItems(RemoveById(d.items, id)))
  }

  /** The price input: `handleItemChange(id, 'price', parseFloat(text) || 0)`.
      The rows with identifier `id` get the parsed price, or 0 when the text
      does not parse; nothing else changes. */
  function PriceInput(d: Invoice, id: string, p: Parsed<real>): (r: Invoice)
    ensures |r.items| == |d.items|
    ensures forall i :: 0 <= i < |d.items| && d.items[i].id == id ==>
      r.items[i] == d.items[i].(price := if p.Number? then p.value else 0.0)
    ensures forall i :: 0 <= i < |d.items| && d.items[i].id != id ==> r.items[i] == d.items[i]
    ensures forall f :: f != ItemsKey ==> Get(r, f) == Get(d, f)
  {
    HandleItemChange(d, id, EditPrice(CoerceFloat(p)))
  }

  /** The quantity input: `handleItemChange(id, 'quantity', parseInt(text) || 0)`. */
  function QuantityInput(d: Invoice, id: string, p: Parsed<int>): (r: Invoice)
    ensures |r.items| == |d.items|
    ensures forall i :: 0 <= i < |d.items| && d.items[i].id == id ==>
      r.items[i] == d.items[i].(quantity := if p.Number? then p.value else 0)
    ensures forall i :: 0 <= i < |d.items| && d.items[i].id != id ==> r.items[i] == d.items[i]
    ensures forall f :: f != ItemsKey ==> Get(r, f) == Get(d, f)
  {
    HandleItemChange(d, id, EditQuantity(CoerceInt(p)))
  }

  /** The tax-rate input: `updateData('taxRate', parseFloat(text) || 0)`. */
  function TaxRateInput(d: Invoice, p: Parsed<real>): (r: Invoice)
    ensures r.taxRate == (if p.Number? then p.value else 0.0)
    ensures forall f :: f != RateKey(TaxRate) ==> Get(r, f) == Get(d, f)
  {
    App.UpdateData(d, App.SetRate(TaxRate, CoerceFloat(p)))
  }

  /** The discount-rate input: `updateData('discountRate', parseFloat(text) || 0)`. */
  function DiscountRateInput(d: Invoice, p: Parsed<real>): (r: Invoice)
    ensures r.discountRate == (if p.Number? then p.value else 0.0)
    ensures forall f :: f != RateKey(DiscountRate) ==> Get(r, f) == Get(d, f)
  {
    App.UpdateData(d, App.SetRate(DiscountRate, CoerceFloat(p)))
  }

  /** The amounts the view derives from the document on each render. */
  function ViewTotals(d: Invoice): (t: Amounts)
    ensures t.subtotal == Sum(d.items)
    ensures t.taxAmount * 100.0 == t.subtotal * d.taxRate
    ensures t.discountAmount * 100.0 == t.subtotal * d.discountRate
    ensures t.total * 100.0 == t.subtotal * (100.0 + d.taxRate - d.discountRate)
  {
    ComputeTotals(d.items, d.taxRate, d.discountRate)
  }

  /** Editing the name or description of any row never changes the subtotal. */
  lemma TextEditKeepsSubtotal(items: seq<LineItem>, id: string, e: ItemEdit)
    requires e.EditName? || e.EditDescription?
    ensures Subtotal(EditItems(items, id, e)) == Subtotal(items)
  {
    var r := EditItems(items, id, e);
    assert forall i :: 0 <= i < |items| ==> LineTotal(r[i]) == LineTotal(items[i]);
    SumPointwise(r, items);
  }

  /** When identifiers are distinct, editing row `k` moves the subtotal by
      exactly the change in that row's line total. */
  lemma EditChangesSubtotalByOneRow(items: seq<LineItem>, k: nat, e: ItemEdit)
    requires IdsDistinct(items) && k < |items|
    ensures Subtotal(EditItems(items, items[k].id, e))
         == Subtotal(items) - LineTotal(items[k]) + LineTotal(ApplyEdit(items[k], e))
  {
    var id := items[k].id;
    var r := EditItems(items, id, e);
    assert r[..k] + r[k + 1..] == items[..k] + items[k + 1..] by {
      forall i | 0 <= i < |items| && i != k
        ensures r[i] == items[i]
      {
        if i < k { assert items[i].id != items[k].id; } else { assert items[k].id != items[i].id; }
      }
    }
    SumRemoveAt(r, k);
    SumRemoveAt(items, k);
  }

  /** Adding a placeholder row leaves the subtotal unchanged, since its price is 0. */
  lemma AddItemKeepsSubtotal(d: Invoice, newId: string)
    ensures ViewTotals(AddItem(d, newId)).subtotal == ViewTotals(d).subtotal
    ensures ViewTotals(AddItem(d, newId)).total == ViewTotals(d).total
  {
    var e := AddItem(d, newId);
    assert Sum(e.items) == Sum(d.items) by {
      SumConcat(d.items, [NewItem(newId)]);
      assert Sum([NewItem(newId)]) == 0.0 by {
        assert [NewItem(newId)][1..] == [];
      }
    }
    assert e.taxRate == d.taxRate by {
      assert Get(e, RateKey(TaxRate)) == Get(d, RateKey(TaxRate));
    }
    assert e.discountRate == d.discountRate by {
      assert Get(e, RateKey(DiscountRate)) == Get(d, RateKey(DiscountRate));
    }
    TotalsDependOnSum(e.items, d.items, d.taxRate, d.discountRate);
  }

  /** Round trip on the document: adding a row under a fresh identifier and
      removing it again restores the document exactly. */
  lemma AddThenRemoveRestoresDocument(d: Invoice, newId: string)
    requires !HasId(d.items, newId)
    ensures RemoveItem(AddItem(d, newId), newId) == d
  {
    AddThenRemoveRestores(d.items, newId);
    var r := RemoveItem(AddItem(d, newId), newId);
    forall f
      ensures Get(r, f) == Get(d, f)
    {
      if f != ItemsKey {
        assert Get(AddItem(d, newId), f) == Get(d, f);
      }
    }
    FieldsDetermineInvoice(r, d);
  }

  /** The item actions the view offers, with the identifier of an added row
      supplied from outside. */
  datatype ItemAction = Change(id: string, edit: ItemEdit) | Add(newId: string) | Remove(id: string)

  /** One item action applied to the document; only the rows can change. */
  function Step(d: Invoice, a: ItemAction): (r: Invoice)
    ensures forall f :: f != ItemsKey ==> Get(r, f) == Get(d, f)
  {
    match a
    case Change(id, e) => HandleItemChange(d, id, e)
    case Add(newId) => AddItem(d, newId)
    case Remove(id) => RemoveItem(d, id)
  }

  /** One action keeps the identifiers distinct when an added identifier is fresh. */
  lemma StepKeepsIdsDistinct(d: Invoice, a: ItemAction)
    requires IdsDistinct(d.items)
    requires a.Add? ==> !HasId(d.items, a.newId)
    ensures IdsDistinct(Step(d, a).items)
  {
    match a
    case Change(id, e) => EditItemsKeepsIds(d.items, id, e);
    case Add(newId) => AppendFreshKeepsIdsDistinct(d.items, newId);
    case Remove(id) => RemoveKeepsIdsDistinct(d.items, id);
  }

  /** Every added identifier is fresh at the moment it is added. */
  predicate FreshAdds(d: Invoice, actions: seq<ItemAction>)
    decreases |actions|
  {
    actions == [] ||
    ((actions[0].Add? ==> !HasId(d.items, actions[0].newId)) && FreshAdds(Step(d, actions[0]), actions[1..]))
  }

  /** Run a sequence of item actions, returning the final document. Any run
      is accepted, repeated or colliding identifiers included, and only the
      rows can change. */
  function Run(d: Invoice, actions: seq<ItemAction>): (r: Invoice)
    ensures forall f :: f != ItemsKey ==> Get(r, f) == Get(d, f)
    decreases |actions|
  {
    if actions == [] then d else Run(Step(d, actions[0]), actions[1..])
  }

  /** The identifiers stay distinct over a run that starts from distinct
      identifiers and adds only fresh ones (the random identifiers of the
      source are not checked for freshness, so this is a hypothesis). */
  lemma {:induction false} RunKeepsIdsDistinct(d: Invoice, actions: seq<ItemAction>)
    requires IdsDistinct(d.items) && FreshAdds(d, actions)
    ensures IdsDistinct(Run(d, actions).items)
    decreases |actions|
  {
    if actions != [] {
      StepKeepsIdsDistinct(d, actions[0]);
      RunKeepsIdsDistinct(Step(d, actions[0]), actions[1..]);
    }
  }
}
