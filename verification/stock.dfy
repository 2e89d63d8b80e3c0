/** Product quantity lines, shared by the warehouse stock of the greedy engine and by the
    inventory lines and order items of the payload builder. */
module Stock {

  type ProductId = int

  /** A `(product_id, quantity)` pair: a stock line of a warehouse or a line item of an order. */
  datatype Line = Line(productId: ProductId, quantity: int)

  /** The quantity that a dictionary keyed by product id, filled from `lines` in order, holds for
      `p` (a later line overwrites an earlier one), read with default 0. */
  function LastQuantity(lines: seq<Line>, p: ProductId): int
  {
    if lines == [] then 0
    else if lines[|lines| - 1].productId == p then lines[|lines| - 1].quantity
    else LastQuantity(lines[..|lines| - 1], p)
  }

  /** Sum of the quantities of `lines`: an order's total demand. */
  function Total(lines: seq<Line>): int
  {
    if lines == [] then 0 else Total(lines[..|lines| - 1]) + lines[|lines| - 1].quantity
  }

  /** A product that no line names reads as 0. */
  lemma {:induction false} LastQuantityAbsent(lines: seq<Line>, p: ProductId)
    requires forall i :: 0 <= i < |lines| ==> lines[i].productId != p
    ensures LastQuantity(lines, p) == 0
  {
    if lines != [] {
      LastQuantityAbsent(lines[..|lines| - 1], p);
    }
  }

  /** A product that some line names reads as the quantity of the last such line. */
  lemma {:induction false} LastQuantityIsLast(lines: seq<Line>, p: ProductId, i: nat)
    requires i < |lines| && lines[i].productId == p
    requires forall j :: i < j < |lines| ==> lines[j].productId != p
    ensures LastQuantity(lines, p) == lines[i].quantity
  {
    if i < |lines| - 1 {
      LastQuantityIsLast(lines[..|lines| - 1], p, i);
    }
  }
}
