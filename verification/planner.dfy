/** `RoutePlannerService::prepareDataForOptimization`: the solver payload built from the
    dispatcher's warehouse locations, orders and per-warehouse inventories. Locations list the
    depots first and then the orders; each depot has a capacity vector and each order a demand
    vector over one dense index of the inventory's product ids. */
module Planner {

  import opened Stock
  import opened PhpArrays

  /** An entry of `warehouseLocations`; `longLat` is longitude and latitude joined by a comma. */
  datatype WarehouseLocation = WarehouseLocation(vehicleNo: string, ownerWarehouseId: int, longLat: string)

  /** One entry of `inventories`: a warehouse id and its inventory lines. */
  datatype InventoryGroup = InventoryGroup(warehouseId: int, lines: seq<Line>)

  datatype PlannerOrder = PlannerOrder(latitude: string, longitude: string, items: seq<Line>)

  datatype Payload = Payload(
    locations: seq<seq<string>>,
    vehicleCapacities: seq<seq<int>>,
    demands: seq<seq<int>>,
    numVehicles: nat,
    depotIndices: seq<int>)

  /** `flatten(1)`: the inventory lines of every warehouse, warehouse after warehouse. */
  function Flatten(groups: seq<InventoryGroup>): seq<Line>
  {
    if groups == [] then [] else groups[0].lines + Flatten(groups[1..])
  }

  /** The product id of each line, in order. */
  function ProductIdsOf(lines: seq<Line>): (ids: seq<ProductId>)
    ensures |ids| == |lines| && forall t :: 0 <= t < |lines| ==> ids[t] == lines[t].productId
  {
    seq(|lines|, t requires 0 <= t < |lines| => lines[t].productId)
  }

  /** The distinct product ids of all inventories, in order of first occurrence. */
  function ProductIds(groups: seq<InventoryGroup>): seq<ProductId>
  {
    Unique(ProductIdsOf(Flatten(groups)))
  }

  /** The inventory lines of warehouse `id`, none when it has no entry (inventory keys are
      unique, so the first match is the only one). */
  function GroupLines(groups: seq<InventoryGroup>, id: int): seq<Line>
  {
    if groups == [] then []
    else if groups[0].warehouseId == id then groups[0].lines
    else GroupLines(groups[1..], id)
  }

  /** Every product named by `lines` has a slot below `n` in `index`. */
  predicate Indexed(index: map<ProductId, nat>, n: nat, lines: seq<Line>)
  {
    forall t :: 0 <= t < |lines| ==> lines[t].productId in index && index[lines[t].productId] < n
  }

  /** A zero vector of length `n` after the writes `v[index[pid]] = quantity` of `lines`,
      in order. */
  function Written(index: map<ProductId, nat>, n: nat, lines: seq<Line>): (v: seq<int>)
    requires Indexed(index, n, lines)
    ensures |v| == n
  {
    if lines == [] then seq(n, _ => 0)
    else
      var last := lines[|lines| - 1];
      Written(index, n, lines[..|lines| - 1])[index[last.productId] := last.quantity]
  }

  /** With the flip of distinct ids as index, slot `k` ends up holding the quantity of the last
      line for product `ids[k]`, and 0 when no line names it. */
  lemma {:induction false} WrittenIsLast(ids: seq<ProductId>, lines: seq<Line>)
    requires Distinct(ids) && Indexed(Flip(ids), |ids|, lines)
    ensures forall k :: 0 <= k < |ids| ==> Written(Flip(ids), |ids|, lines)[k] == LastQuantity(lines, ids[k])
  {
    FlipDistinct(ids);
    if lines != [] {
      var front := lines[..|lines| - 1];
      assert Indexed(Flip(ids), |ids|, front) by {
        assert forall t :: 0 <= t < |front| ==> front[t] == lines[t];
      }
      WrittenIsLast(ids, front);
    }
  }

  /** The inner `foreach` over lines: the writes into a fresh zero vector of length `n`. */
  method Tally(index: map<ProductId, nat>, n: nat, lines: seq<Line>) returns (v: seq<int>)
    requires Indexed(index, n, lines)
    ensures v == Written(index, n, lines)
  {
    var vec := new int[n](_ => 0);
    for t := 0 to |lines|
      invariant Indexed(index, n, lines[..t])
      invariant vec[..] == Written(index, n, lines[..t])
    {
      assert lines[..t + 1][..t] == lines[..t];
      var idx := index[lines[t].productId];
      vec[idx] := lines[t].quantity;
    }
    assert lines[..|lines|] == lines;
    v := vec[..];
  }

  /** The inventory of one warehouse is part of the flattened inventory. */
  lemma {:induction false} GroupLinesInFlatten(groups: seq<InventoryGroup>, id: int)
    ensures forall l :: l in GroupLines(groups, id) ==> l in Flatten(groups)
  {
    if groups != [] && groups[0].warehouseId != id {
      GroupLinesInFlatten(groups[1..], id);
    }
  }

  /** A line's product id is among the ids plucked from its list. */
  lemma PluckedId(lines: seq<Line>, l: Line)
    requires l in lines
    ensures l.productId in ProductIdsOf(lines)
  {
    var s :| 0 <= s < |lines| && lines[s] == l;
    assert ProductIdsOf(lines)[s] == l.productId;
  }

  /** The lines of the inventory of warehouse `id` only name products of the product index. */
  lemma GroupLinesIndexed(groups: seq<InventoryGroup>, id: int)
    ensures var ids := ProductIds(groups);
      Indexed(Flip(ids), |ids|, GroupLines(groups, id))
  {
    var lines := GroupLines(groups, id);
    GroupLinesInFlatten(groups, id);
    forall t | 0 <= t < |lines| ensures lines[t].productId in ProductIdsOf(Flatten(groups)) {
      PluckedId(Flatten(groups), lines[t]);
    }
  }

  /** The inventory of any warehouse only names products of the product index. */
  lemma AllGroupLinesIndexed(inventories: seq<InventoryGroup>)
    ensures var ids := ProductIds(inventories);
      forall id :: Indexed(Flip(ids), |ids|, GroupLines(inventories, id))
  {
    forall id ensures Indexed(Flip(ProductIds(inventories)), |ProductIds(inventories)|, GroupLines(inventories, id)) {
      GroupLinesIndexed(inventories, id);
    }
  }

  /** Every ordered product has a slot in the product index: the code looks each one up
      without a check. */
  predicate OrdersKnown(orders: seq<PlannerOrder>, groups: seq<InventoryGroup>)
  {
    forall j, t :: 0 <= j < |orders| && 0 <= t < |orders[j].items| ==>
      orders[j].items[t].productId in ProductIds(groups)
  }

  /** `prepareDataForOptimization()` after the data fetch; an absent input key reads as an
      empty list. */
  method PrepareDataForOptimization(
    warehouseLocations: seq<WarehouseLocation>, orders: seq<PlannerOrder>, inventories: seq<InventoryGroup>)
    returns (p: Payload)
    requires OrdersKnown(orders, inventories)
    ensures var ids := ProductIds(inventories);
      && |p.locations| == |p.vehicleCapacities| + |p.demands|
      && |p.vehicleCapacities| == |warehouseLocations|
      && |p.demands| == |orders|
      && (forall i :: 0 <= i < |warehouseLocations| ==> p.locations[i] == Explode(warehouseLocations[i].longLat))
      && (forall j :: 0 <= j < |orders| ==>
            p.locations[|warehouseLocations| + j] == [orders[j].latitude, orders[j].longitude])
      && (forall i :: 0 <= i < |warehouseLocations| ==>
            var vc := p.vehicleCapacities[i];
            var lines := GroupLines(inventories, warehouseLocations[i].ownerWarehouseId);
            |vc| == |ids| && forall k :: 0 <= k < |ids| ==> vc[k] == LastQuantity(lines, ids[k]))
      && (forall j :: 0 <= j < |orders| ==>
            var d := p.demands[j];
            |d| == |ids| && forall k :: 0 <= k < |ids| ==> d[k] == LastQuantity(orders[j].items, ids[k]))
      && p.numVehicles == |warehouseLocations|
      && p.depotIndices == PhpRange(0, |warehouseLocations| - 1)
  {
    var productIds := ProductIds(inventories);
    var productIndex := Flip(productIds);
    AllGroupLinesIndexed(inventories);
    var locations, vehicleCapacities := AddDepots(warehouseLocations, inventories, productIndex, |productIds|);
    OrdersIndexed(orders, inventories);
    var demands;
    locations, demands := AddOrders(orders, productIndex, |productIds|, locations);
    p := Payload(locations, vehicleCapacities, demands, |vehicleCapacities|, PhpRange(0, |vehicleCapacities| - 1));
    CapacitiesAreLast(productIds, warehouseLocations, inventories, vehicleCapacities);
    DemandsAreLast(productIds, orders, demands);
  }

  /** Each capacity vector written from its warehouse's inventory holds, per product, the last
      quantity that inventory lists for it. */
  lemma CapacitiesAreLast(
    ids: seq<ProductId>, warehouseLocations: seq<WarehouseLocation>, inventories: seq<InventoryGroup>, vcs: seq<seq<int>>)
    requires ids == ProductIds(inventories) && |vcs| == |warehouseLocations|
    requires forall i :: 0 <= i < |warehouseLocations| ==>
      && Indexed(Flip(ids), |ids|, GroupLines(inventories, warehouseLocations[i].ownerWarehouseId))
      && vcs[i] == Written(Flip(ids), |ids|, GroupLines(inventories, warehouseLocations[i].ownerWarehouseId))
    ensures forall i :: 0 <= i < |warehouseLocations| ==>
      var lines := GroupLines(inventories, warehouseLocations[i].ownerWarehouseId);
      |vcs[i]| == |ids| && forall k :: 0 <= k < |ids| ==> vcs[i][k] == LastQuantity(lines, ids[k])
  {
    forall i | 0 <= i < |warehouseLocations|
      ensures forall k :: 0 <= k < |ids| ==>
        vcs[i][k] == LastQuantity(GroupLines(inventories, warehouseLocations[i].ownerWarehouseId), ids[k])
    {
      WrittenIsLast(ids, GroupLines(inventories, warehouseLocations[i].ownerWarehouseId));
    }
  }

  /** Each demand vector written from an order's items holds, per product, the last quantity the
      order lists for it. */
  lemma DemandsAreLast(ids: seq<ProductId>, orders: seq<PlannerOrder>, ds: seq<seq<int>>)
    requires Distinct(ids) && |ds| == |orders|
    requires forall j :: 0 <= j < |orders| ==>
      Indexed(Flip(ids), |ids|, orders[j].items) && ds[j] == Written(Flip(ids), |ids|, orders[j].items)
    ensures forall j :: 0 <= j < |orders| ==>
      |ds[j]| == |ids| && forall k :: 0 <= k < |ids| ==> ds[j][k] == LastQuantity(orders[j].items, ids[k])
  {
    forall j | 0 <= j < |orders|
      ensures forall k :: 0 <= k < |ids| ==> ds[j][k] == LastQuantity(orders[j].items, ids[k])
    {
      WrittenIsLast(ids, orders[j].items);
    }
  }

  /** The depot loop: one location (the exploded `long_lat`) and one capacity vector (the
      warehouse's inventory written over zeros) per warehouse location. */
  method AddDepots(
    warehouseLocations: seq<WarehouseLocation>, inventories: seq<InventoryGroup>, productIndex: map<ProductId, nat>, n: nat)
    returns (locations: seq<seq<string>>, vehicleCapacities: seq<seq<int>>)
    requires forall id :: Indexed(productIndex, n, GroupLines(inventories, id))
    ensures |locations| == |vehicleCapacities| == |warehouseLocations|
    ensures forall i :: 0 <= i < |warehouseLocations| ==> locations[i] == Explode(warehouseLocations[i].longLat)
    ensures forall i :: 0 <= i < |warehouseLocations| ==>
      && Indexed(productIndex, n, GroupLines(inventories, warehouseLocations[i].ownerWarehouseId))
      && vehicleCapacities[i] == Written(productIndex, n, GroupLines(inventories, warehouseLocations[i].ownerWarehouseId))
  {
    locations, vehicleCapacities := [], [];
    for i := 0 to |warehouseLocations|
      invariant |locations| == |vehicleCapacities| == i
      invariant forall i' :: 0 <= i' < i ==> locations[i'] == Explode(warehouseLocations[i'].longLat)
      invariant forall i' :: 0 <= i' < i ==>
        && Indexed(productIndex, n, GroupLines(inventories, warehouseLocations[i'].ownerWarehouseId))
        && vehicleCapacities[i'] == Written(productIndex, n, GroupLines(inventories, warehouseLocations[i'].ownerWarehouseId))
    {
      var wh := warehouseLocations[i];
      var vc := Tally(productIndex, n, GroupLines(inventories, wh.ownerWarehouseId));
      locations, vehicleCapacities := locations + [Explode(wh.longLat)], vehicleCapacities + [vc];
    }
  }

  /** The order loop: one demand vector (the order's items written over zeros) per order, and
      its `[latitude, longitude]` appended after the locations so far. */
  method AddOrders(orders: seq<PlannerOrder>, productIndex: map<ProductId, nat>, n: nat, locations0: seq<seq<string>>)
    returns (locations: seq<seq<string>>, demands: seq<seq<int>>)
    requires forall j :: 0 <= j < |orders| ==> Indexed(productIndex, n, orders[j].items)
    ensures |demands| == |orders| && |locations| == |locations0| + |orders|
    ensures forall i :: 0 <= i < |locations0| ==> locations[i] == locations0[i]
    ensures forall j :: 0 <= j < |orders| ==> locations[|locations0| + j] == [orders[j].latitude, orders[j].longitude]
    ensures forall j :: 0 <= j < |orders| ==> demands[j] == Written(productIndex, n, orders[j].items)
  {
    locations, demands := locations0, [];
    for j := 0 to |orders|
      invariant |demands| == j && |locations| == |locations0| + j
      invariant forall i :: 0 <= i < |locations0| ==> locations[i] == locations0[i]
      invariant forall j' :: 0 <= j' < j ==> locations[|locations0| + j'] == [orders[j'].latitude, orders[j'].longitude]
      invariant forall j' :: 0 <= j' < j ==> demands[j'] == Written(productIndex, n, orders[j'].items)
    {
      var o := orders[j];
      var d := Tally(productIndex, n, o.items);
      demands := demands + [d];
      locations := locations + [[o.latitude, o.longitude]];
    }
  }

  /** Under the product index, every ordered product has a slot. */
  lemma OrdersIndexed(orders: seq<PlannerOrder>, inventories: seq<InventoryGroup>)
    requires OrdersKnown(orders, inventories)
    ensures var ids := ProductIds(inventories);
      forall j :: 0 <= j < |orders| ==> Indexed(Flip(ids), |ids|, orders[j].items)
  {
  }

  /** The product index numbers the distinct inventory product ids `0 .. n-1` without gaps or
      clashes, earlier first occurrences getting smaller numbers. */
  lemma ProductIndexBijective(inventories: seq<InventoryGroup>)
    ensures var ids := ProductIds(inventories);
      var index := Flip(ids);
      && (forall l :: l in Flatten(inventories) ==> l.productId in index)
      && (forall p :: p in index ==> index[p] < |ids| && ids[index[p]] == p)
      && (forall k :: 0 <= k < |ids| ==> index[ids[k]] == k)
      && (forall p, q :: p in index && q in index && index[p] < index[q] ==>
            FirstIndex(ProductIdsOf(Flatten(inventories)), p) < FirstIndex(ProductIdsOf(Flatten(inventories)), q))
  {
    var ids := ProductIds(inventories);
    var all := ProductIdsOf(Flatten(inventories));
    FlipDistinct(ids);
    forall l | l in Flatten(inventories) ensures l.productId in all {
      PluckedId(Flatten(inventories), l);
    }
    forall p, q | p in Flip(ids) && q in Flip(ids) && Flip(ids)[p] < Flip(ids)[q]
      ensures FirstIndex(all, p) < FirstIndex(all, q)
    {
      UniqueOrder(all, Flip(ids)[p], Flip(ids)[q]);
    }
  }

  /** A depot location built by joining longitude and latitude with a comma is `[longitude, latitude]`, the
      reverse of an order location's `[latitude, longitude]`. */
  lemma DepotLocationIsLongitudeFirst(longitude: string, latitude: string)
    requires ',' !in longitude && ',' !in latitude
    ensures Explode(longitude + "," + latitude) == [longitude, latitude]
  {
    ExplodePair(longitude, latitude);
  }
}
