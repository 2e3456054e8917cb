/** The line-item editor of the invoice form: adding a blank row, removing a row by id
    and editing one field of a row. Each edit builds a new list and hands it on. Rows
    keep their numbers as the text typed into the form. */
module LineItems {
  import opened Wrappers
  import opened Numbers
  import opened Seqs

  /** A row of the editor, and an element of the `items` JSON the form sends. */
  datatype LineItem = LineItem(id: string, description: string, quantity: string, unitPrice: string, amount: string)

  /** The keys of a line item that `updateItem` may set. */
  datatype Field = Id | Description | Quantity | UnitPrice | Amount

  /** `(parseFloat(quantity) || 0) * (parseFloat(unitPrice) || 0)`: an unreadable number
      counts as zero. */
  function Product(quantity: string, unitPrice: string): real {
    OrZero(ParseNumber(quantity)) * OrZero(ParseNumber(unitPrice))
  }

  /** The amount the editor shows: the product printed with two decimals. */
  function LineAmount(quantity: string, unitPrice: string): (r: string)
    ensures ParseNumber(r) == Some(Round2(Product(quantity, unitPrice)))
  {
    FixedNumber(Product(quantity, unitPrice))
  }

  /** The row shows the amount its quantity and unit price give. */
  predicate AmountShown(it: LineItem) {
    it.amount == LineAmount(it.quantity, it.unitPrice)
  }

  predicate AllAmountsShown(items: seq<LineItem>) {
    forall i :: 0 <= i < |items| ==> AmountShown(items[i])
  }

  function IdOf(it: LineItem): string { it.id }

  /** Row ids are random UUIDs: no two rows share one. */
  predicate DistinctIds(items: seq<LineItem>) {
    DistinctBy(items, IdOf)
  }

  predicate HasId(items: seq<LineItem>, id: string) {
    exists i :: 0 <= i < |items| && items[i].id == id
  }

  /** The row `addItem` appends and the form starts with. */
  function BlankItem(id: string): LineItem {
    LineItem(id, "", "1", "", "0.00")
  }

  /** A blank row's amount agrees with its quantity of 1 and its empty unit price. */
  lemma BlankItemShowsItsAmount(id: string)
    ensures AmountShown(BlankItem(id))
  {
    assert Product("1", "") == 0.0 by {
      assert ParseNumber("") == None;
    }
    assert CentsOf(0.0) == 0;
    assert NatToString(0) == "0";
    assert CentsText(0) == "0.00";
    assert FixedNumber(0.0) == "0.00";
  }

  /** `addItem`: the rows so far, unchanged and in order, then a blank row. */
  function AddItem(items: seq<LineItem>, newId: string): (r: seq<LineItem>)
    ensures |r| == |items| + 1
    ensures r[..|items|] == items
    ensures r[|items|].id == newId && r[|items|].description == "" && r[|items|].quantity == "1"
      && r[|items|].unitPrice == "" && r[|items|].amount == "0.00"
  {
    items + [BlankItem(newId)]
  }

  /** `removeItem`: with more than one row, every row with that id is dropped; the last
      row is never removed. */
  function RemoveItem(items: seq<LineItem>, id: string): (r: seq<LineItem>)
    ensures |items| <= 1 ==> r == items
    ensures |r| <= |items|
    ensures forall i :: 0 <= i < |r| ==> r[i] in items
    ensures |items| > 1 ==> forall i :: 0 <= i < |r| ==> r[i].id != id
    ensures forall i :: 0 <= i < |items| && items[i].id != id ==> items[i] in r
  {
    if |items| > 1 then Filter(items, (it: LineItem) => it.id != id) else items
  }

  /** `{ ...item, [field]: value }`. */
  function SetField(it: LineItem, field: Field, value: string): LineItem {
    match field
    case Id => it.(id := value)
    case Description => it.(description := value)
    case Quantity => it.(quantity := value)
    case UnitPrice => it.(unitPrice := value)
    case Amount => it.(amount := value)
  }

  /** One row of `updateItem`: the field is set, and a new quantity or unit price
      recomputes the amount. */
  function Edited(it: LineItem, field: Field, value: string): LineItem {
    var updated := SetField(it, field, value);
    if field == Quantity || field == UnitPrice
    then updated.(amount := LineAmount(updated.quantity, updated.unitPrice))
    else updated
  }

  /** `updateItem`: the rows with that id are edited, every other row is kept as it was,
      in place. */
  function UpdateItem(items: seq<LineItem>, id: string, field: Field, value: string): (r: seq<LineItem>)
    ensures |r| == |items|
    ensures forall i :: 0 <= i < |items| && items[i].id != id ==> r[i] == items[i]
    ensures forall i :: 0 <= i < |items| && items[i].id == id ==> r[i] == Edited(items[i], field, value)
  {
    seq(|items|, i requires 0 <= i < |items| => if items[i].id != id then items[i] else Edited(items[i], field, value))
  }

  /** A row whose amount is in step reads back as the rounded product of its numbers,
      an unreadable number counting as zero. */
  lemma AmountShownReadsBack(it: LineItem)
    requires AmountShown(it)
    ensures it.amount != ""
    ensures ParseNumber(it.amount) == Some(Round2(Product(it.quantity, it.unitPrice)))
  {
    LineAmountIsNotEmpty(it.quantity, it.unitPrice);
    LineAmountReadsBack(it.quantity, it.unitPrice);
  }

  lemma LineAmountIsNotEmpty(quantity: string, unitPrice: string)
    ensures LineAmount(quantity, unitPrice) != ""
  {
    assert ParseNumber("") == None;
  }

  lemma LineAmountReadsBack(quantity: string, unitPrice: string)
    ensures ParseNumber(LineAmount(quantity, unitPrice))
      == Some(Round2(Product(quantity, unitPrice)))
  {
  }

  /** A new quantity or unit price is stored and brings the amount in step with the
      row's numbers. */
  lemma EditingPriceSetsAmount(items: seq<LineItem>, id: string, field: Field, value: string, i: nat)
    requires field == Quantity || field == UnitPrice
    requires i < |items| && items[i].id == id
    ensures var it := UpdateItem(items, id, field, value)[i];
      (field == Quantity ==> it.quantity == value && it.unitPrice == items[i].unitPrice)
      && (field == UnitPrice ==> it.unitPrice == value && it.quantity == items[i].quantity)
      && it.description == items[i].description && it.id == items[i].id
      && AmountShown(it)
  {
  }

  /** A new description keeps the row's numbers and amount. */
  lemma EditingDescriptionKeepsAmount(items: seq<LineItem>, id: string, value: string, i: nat)
    requires i < |items| && items[i].id == id
    ensures UpdateItem(items, id, Description, value)[i]
      == items[i].(description := value)
  {
  }

  /** Adding a row keeps every amount in step with its quantity and unit price. */
  lemma AddItemKeepsAmountsShown(items: seq<LineItem>, newId: string)
    requires AllAmountsShown(items)
    ensures AllAmountsShown(AddItem(items, newId))
  {
    var r := AddItem(items, newId);
    assert r == items + [BlankItem(newId)];
    forall i | 0 <= i < |r|
      ensures AmountShown(r[i])
    {
      if i < |items| {
        assert r[i] == items[i];
      } else {
        BlankItemShowsItsAmount(newId);
      }
    }
  }

  /** Removing rows keeps every amount in step. */
  lemma RemoveItemKeepsAmountsShown(items: seq<LineItem>, id: string)
    requires AllAmountsShown(items)
    ensures AllAmountsShown(RemoveItem(items, id))
  {
    var r := RemoveItem(items, id);
    forall i | 0 <= i < |r|
      ensures AmountShown(r[i])
    {
      var k :| 0 <= k < |items| && items[k] == r[i];
    }
  }

  /** Every edit the editor offers (all but a direct write of the amount) keeps every
      amount in step. */
  lemma UpdateItemKeepsAmountsShown(items: seq<LineItem>, id: string, field: Field, value: string)
    requires AllAmountsShown(items)
    requires field != Amount
    ensures AllAmountsShown(UpdateItem(items, id, field, value))
  {
  }

  /** A fresh id keeps the ids distinct, and the new row can be removed again, giving
      back the list it was added to. */
  lemma AddThenRemove(items: seq<LineItem>, newId: string)
    requires DistinctIds(items) && !HasId(items, newId)
    ensures DistinctIds(AddItem(items, newId))
    ensures |items| >= 1 ==> RemoveItem(AddItem(items, newId), newId) == items
  {
    var r := AddItem(items, newId);
    assert forall i :: 0 <= i < |items| ==> r[i] == items[i];
    if |items| >= 1 {
      FilterDropsOne(r, |items|, (it: LineItem) => it.id != newId);
      assert r[..|items|] == items;
    }
  }

  /** With distinct ids, removing a row that exists drops exactly that row and keeps the
      others in order. */
  lemma RemoveDropsOneRow(items: seq<LineItem>, k: nat)
    requires DistinctIds(items) && k < |items| && |items| > 1
    ensures RemoveItem(items, items[k].id) == items[..k] + items[k + 1..]
  {
    FilterDropsOne(items, k, (it: LineItem) => it.id != items[k].id);
  }

  /** A list that is not empty never becomes empty through the editor. */
  lemma RemoveNeverEmpties(items: seq<LineItem>, id: string)
    requires DistinctIds(items) && |items| >= 1
    ensures |RemoveItem(items, id)| >= 1
    ensures DistinctIds(RemoveItem(items, id))
  {
    var keep := (it: LineItem) => it.id != id;
    if |items| > 1 {
      if k :| 0 <= k < |items| && items[k].id == id {
        RemoveDropsOneRow(items, k);
      } else {
        FilterKeepsAll(items, keep);
      }
      FilterDistinctBy(items, keep, IdOf);
    }
  }

  /** An edit of any field but the id keeps the ids as they were. */
  lemma UpdateKeepsIds(items: seq<LineItem>, id: string, field: Field, value: string)
    requires field != Id
    ensures forall i :: 0 <= i < |items| ==> UpdateItem(items, id, field, value)[i].id == items[i].id
  {
  }
}
