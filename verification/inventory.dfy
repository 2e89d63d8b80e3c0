/** The feasibility test `check_inventory_availability`: can a warehouse's stock cover every
    line item of an order, and which items fall short. */
module Inventory {

  import opened Stock

  /** One entry of `missing_items` (the display-only `product_name` is not modelled). */
  datatype MissingItem = MissingItem(productId: ProductId, required: int, available: int, shortage: int)

  /** Every line item is covered: its required quantity is at most what the stock holds for
      its product, an unstocked product counting as 0. */
  predicate Covers(stock: seq<Line>, items: seq<Line>)
  {
    forall i :: 0 <= i < |items| ==> items[i].quantity <= LastQuantity(stock, items[i].productId)
  }

  /** The items that `stock` cannot cover, in line-item order. */
  function MissingItems(stock: seq<Line>, items: seq<Line>): (missing: seq<MissingItem>)
    ensures |missing| <= |items|
    ensures forall m :: m in missing ==>
      && m.available == LastQuantity(stock, m.productId)
      && m.shortage == m.required - m.available
      && m.shortage > 0
    ensures missing == [] <==> Covers(stock, items)
  {
    if items == [] then []
    else
      var front := items[..|items| - 1];
      assert forall i :: 0 <= i < |front| ==> front[i] == items[i];
      MissingItems(stock, front) + Shortfall(stock, items[|items| - 1])
  }

  /** The entry one line item contributes to `missing_items`: none when covered. */
  function Shortfall(stock: seq<Line>, item: Line): seq<MissingItem>
  {
    var available := LastQuantity(stock, item.productId);
    if available < item.quantity
    then [MissingItem(item.productId, item.quantity, available, item.quantity - available)]
    else []
  }

  /** `check_inventory_availability(warehouse, order)`: `(can_fulfill, missing_items)`. */
  function CheckInventoryAvailability(stock: seq<Line>, items: seq<Line>): (r: (bool, seq<MissingItem>))
    ensures r.0 <==> Covers(stock, items)
    ensures r.0 <==> r.1 == []
    ensures r.1 == MissingItems(stock, items)
  {
    var missing := MissingItems(stock, items);
    (|missing| == 0, missing)
  }

  /** The missing-item list of a concatenation is the concatenation of the lists: entries keep
      line-item order. */
  lemma {:induction false} MissingItemsConcat(stock: seq<Line>, a: seq<Line>, b: seq<Line>)
    ensures MissingItems(stock, a + b) == MissingItems(stock, a) + MissingItems(stock, b)
    decreases |b|
  {
    if b == [] {
      assert a + b == a;
    } else {
      var front := b[..|b| - 1];
      assert (a + b)[..|a + b| - 1] == a + front;
      assert (a + b)[|a + b| - 1] == b[|b| - 1];
      MissingItemsConcat(stock, a, front);
    }
  }

  /** Every missing entry reports a line item of the order: its product and required quantity. */
  lemma {:induction false} MissingItemsFromItems(stock: seq<Line>, items: seq<Line>, k: nat)
    requires k < |MissingItems(stock, items)|
    ensures exists i ::
      && 0 <= i < |items|
      && items[i].productId == MissingItems(stock, items)[k].productId
      && items[i].quantity == MissingItems(stock, items)[k].required
  {
    var n := |items| - 1;
    var front := items[..n];
    var rest := MissingItems(stock, front);
    var tail := Shortfall(stock, items[n]);
    assert MissingItems(stock, items) == rest + tail;
    if k < |rest| {
      MissingItemsFromItems(stock, front, k);
      var i :| 0 <= i < |front| && front[i].productId == rest[k].productId && front[i].quantity == rest[k].required;
      assert items[i] == front[i];
      assert MissingItems(stock, items)[k] == rest[k];
    } else {
      assert MissingItems(stock, items)[k] == tail[0];
      assert items[n].productId == tail[0].productId && items[n].quantity == tail[0].required;
    }
  }
}
