/** The line-item list operations of the invoice view
    (components/InvoicePaper.tsx): edit one field of the item(s) with a given
    identifier, append a placeholder row, and remove by identifier. Each one
    produces a new list; the document-level handlers live in `InvoicePaper`. */
module Items {
  import opened Types

  /** A typed edit of one field of a row: the four fields the editor exposes. */
  datatype ItemEdit =
    | EditName(name: string)
    | EditDescription(description: string)
    | EditPrice(price: real)
    | EditQuantity(quantity: int)

  /** `{ ...item, [field]: value }`: the row with exactly the edited field replaced. */
  function ApplyEdit(item: LineItem, e: ItemEdit): (r: LineItem)
    ensures r.id == item.id
    ensures r.name == (if e.EditName? then e.name else item.name)
    ensures r.description == (if e.EditDescription? then e.description else item.description)
    ensures r.price == (if e.EditPrice? then e.price else item.price)
    ensures r.quantity == (if e.EditQuantity? then e.quantity else item.quantity)
  {
    match e
    case EditName(n) => item.(name := n)
    case EditDescription(s) => item.(description := s)
    case EditPrice(p) => item.(price := p)
    case EditQuantity(q) => item.(quantity := q)
  }

  /** The `items.map(...)` of `handleItemChange`: every row whose identifier is
      `id` gets the edit, every other row is returned as it was, and the list
      keeps its length and order. */
  function EditItems(items: seq<LineItem>, id: string, e: ItemEdit): (r: seq<LineItem>)
    ensures |r| == |items|
    ensures forall i :: 0 <= i < |items| && items[i].id == id ==> r[i] == ApplyEdit(items[i], e)
    ensures forall i :: 0 <= i < |items| && items[i].id != id ==> r[i] == items[i]
    decreases |items|
  {
    if items == [] then []
    else
      var head := if items[0].id == id then ApplyEdit(items[0], e) else items[0];
      [head] + EditItems(items[1..], id, e)
  }

  /** Editing never touches identifiers, so it keeps the document invariant. */
  lemma EditItemsKeepsIds(items: seq<LineItem>, id: string, e: ItemEdit)
    ensures Ids(EditItems(items, id, e)) == Ids(items)
    ensures IdsDistinct(items) ==> IdsDistinct(EditItems(items, id, e))
  {
    var r := EditItems(items, id, e);
    assert forall i :: 0 <= i < |items| ==> r[i].id == items[i].id;
  }

  /** Editing an identifier nobody carries is the identity. */
  lemma EditAbsentIdIsIdentity(items: seq<LineItem>, id: string, e: ItemEdit)
    requires !HasId(items, id)
    ensures EditItems(items, id, e) == items
  {
  }

  /** The placeholder row `addItem` creates, with the caller-chosen identifier
      standing in for the random one. */
  function NewItem(id: string): LineItem {
    LineItem(id, "Novo Produto", "Descrição do serviço ou produto", 0.0, 1)
  }

  /** `[...items, newItem]`: the old list, untouched, plus one placeholder row
      at the end with price 0 and quantity 1. */
  function AppendItem(items: seq<LineItem>, id: string): (r: seq<LineItem>)
    ensures |r| == |items| + 1
    ensures r[..|items|] == items
    ensures r[|items|].id == id && r[|items|].price == 0.0 && r[|items|].quantity == 1
    ensures r[|items|] == NewItem(id)
  {
    items + [NewItem(id)]
  }

  /** Appending under an identifier not yet in use keeps the identifiers distinct. */
  lemma AppendFreshKeepsIdsDistinct(items: seq<LineItem>, id: string)
    requires IdsDistinct(items) && !HasId(items, id)
    ensures IdsDistinct(AppendItem(items, id))
  {
    var r := AppendItem(items, id);
    forall i, j | 0 <= i < j < |r|
      ensures r[i].id != r[j].id
    {
      if j == |items| {
        assert r[i] == items[i];
      } else {
        assert r[i] == items[i] && r[j] == items[j];
      }
    }
  }

  /** `items.filter(i => i.id !== id)`. */
  function RemoveById(items: seq<LineItem>, id: string): (r: seq<LineItem>)
    ensures |r| <= |items|
    ensures forall k :: 0 <= k < |r| ==> r[k].id != id
    ensures forall x :: x in r <==> x in items && x.id != id
    decreases |items|
  {
    if items == [] then []
    else if items[0].id == id then RemoveById(items[1..], id)
    else [items[0]] + RemoveById(items[1..], id)
  }

  /** Removal works block by block: the rows kept from `a + b` are those kept
      from `a` followed by those kept from `b`, which is what "same relative
      order" means. */
  lemma {:induction false} RemoveByIdConcat(a: seq<LineItem>, b: seq<LineItem>, id: string)
    ensures RemoveById(a + b, id) == RemoveById(a, id) + RemoveById(b, id)
    decreases |a|
  {
    if a == [] {
      assert a + b == b;
    } else {
      assert (a + b)[1..] == a[1..] + b;
      RemoveByIdConcat(a[1..], b, id);
    }
  }

  /** Removing an identifier nobody carries returns the list unchanged. */
  lemma {:induction false} RemoveAbsentIdIsIdentity(items: seq<LineItem>, id: string)
    requires !HasId(items, id)
    ensures RemoveById(items, id) == items
    decreases |items|
  {
    if items != [] {
      assert items[0].id != id;
      assert !HasId(items[1..], id) by {
        forall i | 0 <= i < |items[1..]|
          ensures items[1..][i].id != id
        {
          assert items[1..][i] == items[i + 1];
        }
      }
      RemoveAbsentIdIsIdentity(items[1..], id);
      assert items == [items[0]] + items[1..];
    }
  }

  /** Removing twice by the same identifier is the same as removing once. */
  lemma RemoveByIdIdempotent(items: seq<LineItem>, id: string)
    ensures RemoveById(RemoveById(items, id), id) == RemoveById(items, id)
  {
    RemoveAbsentIdIsIdentity(RemoveById(items, id), id);
  }

  /** The number of rows carrying identifier `id`. */
  function CountId(items: seq<LineItem>, id: string): (n: nat)
    ensures n <= |items|
    decreases |items|
  {
    if items == [] then 0
    else (if items[0].id == id then 1 else 0) + CountId(items[1..], id)
  }

  /** A row is kept exactly when its identifier differs from `id`, so the
      number of rows removed is the number carrying `id`. */
  lemma {:induction false} RemoveByIdLength(items: seq<LineItem>, id: string)
    ensures |RemoveById(items, id)| == |items| - CountId(items, id)
    decreases |items|
  {
    if items != [] {
      RemoveByIdLength(items[1..], id);
    }
  }

  /** Removing keeps the identifiers distinct. */
  lemma {:induction false} RemoveKeepsIdsDistinct(items: seq<LineItem>, id: string)
    requires IdsDistinct(items)
    ensures IdsDistinct(RemoveById(items, id))
    decreases |items|
  {
    if items != [] {
      var tail := items[1..];
      IdsDistinctCons(items);
      RemoveKeepsIdsDistinct(tail, id);
      if items[0].id != id {
        var rest := RemoveById(tail, id);
        var r := [items[0]] + rest;
        assert !HasId(rest, items[0].id) by {
          forall k | 0 <= k < |rest|
            ensures rest[k].id != items[0].id
          {
            assert rest[k] in tail;
          }
        }
        assert r[1..] == rest;
        IdsDistinctCons(r);
      }
    }
  }

  /** Round trip: appending a row under a fresh identifier and then removing
      by that identifier gives back the original list exactly. */
  lemma AddThenRemoveRestores(items: seq<LineItem>, id: string)
    requires !HasId(items, id)
    ensures RemoveById(AppendItem(items, id), id) == items
  {
    RemoveByIdConcat(items, [NewItem(id)], id);
    RemoveAbsentIdIsIdentity(items, id);
    assert RemoveById([NewItem(id)], id) == [];
  }

  /** Without freshness the round trip fails: a pre-existing row with the same
      identifier is removed too. */
  lemma AddThenRemoveNeedsFreshId()
    ensures var items := [NewItem("x")];
      RemoveById(AppendItem(items, "x"), "x") != items
  {
    var items := [NewItem("x")];
    assert RemoveById(AppendItem(items, "x"), "x") == [];
  }
}
