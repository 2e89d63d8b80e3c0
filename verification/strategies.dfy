/** The greedy order-to-warehouse assignment strategies of the routing service: each order in
    turn goes to one warehouse, or to the unassigned list, and the chosen warehouse's
    `current_assigned_load` grows by the order's demand. */
module Strategies {

  import opened Wrappers
  import opened Stock
  import opened Inventory

  /** A coordinate pair (latitude, longitude). */
  datatype Point = Point(lat: real, lng: real)

  /** The great-circle distance in whole metres; the model takes it as a parameter. */
  type Distance = (Point, Point) -> nat

  datatype Order = Order(orderId: int, position: Point, items: seq<Line>)

  /** `capacity` reads as 100 when the record has none. */
  const DefaultCapacity := 100

  /** A warehouse record; the keys the source reads with a default are `Option`s. */
  datatype Warehouse = Warehouse(
    position: Point,
    products: seq<Line>,
    capacity: Option<int>,
    preAssignedLoad: Option<int>,
    preAssignedCount: Option<int>,
    currentAssignedLoad: Option<int>)
  {
    function Capacity(): int { capacity.GetOr(DefaultCapacity) }
    function Load(): int { currentAssignedLoad.GetOr(0) }
    function PreAssigned(): int { preAssignedCount.GetOr(0) }
  }

  /** The four greedy strategies (`assign_closest_with_inventory`, `assign_closest_any`,
      `assign_least_assigned`, `assign_least_total_load`). */
  datatype Greedy = ClosestWithInventory | ClosestAny | LeastAssigned | LeastTotalLoad
  {
    /** The strategy identifier used in the formatted result. */
    function Name(): string {
      match this
      case ClosestWithInventory => "closest_with_inventory"
      case ClosestAny => "closest_any"
      case LeastAssigned => "least_assigned_orders"
      case LeastTotalLoad => "least_total_load"
    }

    /** The `strategy` tag written into each assignment record. */
    function Tag(): string {
      match this
      case ClosestWithInventory => "closest_with_inventory"
      case ClosestAny => "closest_any"
      case LeastAssigned => "least_assigned"
      case LeastTotalLoad => "least_total_load"
    }

    /** The `reason` written for an order no warehouse takes. */
    function Reason(): string {
      match this
      case ClosestWithInventory => "no_warehouse_with_inventory"
      case ClosestAny => "all_warehouses_at_capacity"
      case LeastAssigned => "no_warehouse_available"
      case LeastTotalLoad => "insufficient_capacity_or_inventory"
    }
  }

  /** One entry of a warehouse's list in `assignments`; `distance` and `needs_restock` are
      absent where the strategy does not write them. */
  datatype AssignedOrder = AssignedOrder(
    orderIndex: nat, orderId: int, distance: Option<nat>, needsRestock: Option<bool>, strategy: string)

  datatype UnassignedOrder = UnassignedOrder(orderIndex: nat, orderId: int, reason: string)

  /** What an `assign_*` function returns: each warehouse index's list of assigned orders,
      and the orders no warehouse took. */
  datatype GreedyResult = GreedyResult(assignments: map<nat, seq<AssignedOrder>>, unassigned: seq<UnassignedOrder>)
  {
    /** The list of warehouse `k`, empty when it has none. */
    function AssignedTo(k: nat): seq<AssignedOrder> {
      if k in assignments then assignments[k] else []
    }
  }

  /** The warehouse list and the result built so far. */
  datatype State = State(warehouses: seq<Warehouse>, result: GreedyResult)

  /** The `can_fulfill` half of `check_inventory_availability(w, o)` (see its contract). */
  predicate CanFulfill(w: Warehouse, o: Order)
  {
    Covers(w.products, o.items)
  }

  /** The order's demand: the sum of its line items' quantities. */
  function Demand(o: Order): int
  {
    Total(o.items)
  }

  /** Whether the inner loop of strategy `g` considers warehouse `w` for order `o` at all. */
  predicate Eligible(g: Greedy, w: Warehouse, o: Order)
  {
    match g
    case ClosestWithInventory => CanFulfill(w, o) && w.Load() < w.Capacity()
    case ClosestAny => w.Load() < w.Capacity()
    case LeastAssigned => w.Load() < w.Capacity() && CanFulfill(w, o)
    case LeastTotalLoad => w.Load() + Demand(o) <= w.Capacity() && CanFulfill(w, o)
  }

  /** The quantity strategy `g` minimises; `assignedSoFar` is the length of the warehouse's
      list in `assignments`. */
  function Key(g: Greedy, w: Warehouse, assignedSoFar: nat, o: Order, dist: Distance): int
  {
    match g
    case ClosestWithInventory => dist(w.position, o.position)
    case ClosestAny => dist(w.position, o.position)
    case LeastAssigned => assignedSoFar + w.PreAssigned()
    case LeastTotalLoad => w.Load()
  }

  /** The pick of the inner loop of strategy `g` after scanning warehouses `0 .. n-1`: it starts
      with none (an infinite best key) and takes an eligible warehouse whenever there is no
      best yet or its key is strictly below the best key, so the first index wins ties. */
  function ChooseAmong(g: Greedy, ws: seq<Warehouse>, r: GreedyResult, o: Order, dist: Distance, n: nat): (best: Option<nat>)
    requires n <= |ws|
    ensures best.Some? ==> best.value < n
  {
    if n == 0 then None
    else
      var b := ChooseAmong(g, ws, r, o, dist, n - 1);
      var i := n - 1;
      if Eligible(g, ws[i], o)
         && (b.None? || Key(g, ws[i], |r.AssignedTo(i)|, o, dist) < Key(g, ws[b.value], |r.AssignedTo(b.value)|, o, dist))
      then Some(i)
      else b
  }

  /** The warehouse strategy `g` picks for `o`, after scanning them all. */
  function Choose(g: Greedy, ws: seq<Warehouse>, r: GreedyResult, o: Order, dist: Distance): (best: Option<nat>)
    ensures best.Some? ==> best.value < |ws|
  {
    ChooseAmong(g, ws, r, o, dist, |ws|)
  }

  /** After scanning `0 .. n-1` the pick is none exactly when none of them is eligible;
      otherwise it is eligible, its key is the least among the eligible ones, and strictly
      less than that of every eligible warehouse before it. */
  lemma {:induction false} ChooseAmongSpec(g: Greedy, ws: seq<Warehouse>, r: GreedyResult, o: Order, dist: Distance, n: nat)
    requires n <= |ws|
    ensures var best := ChooseAmong(g, ws, r, o, dist, n);
      && (best.None? <==> forall i :: 0 <= i < n ==> !Eligible(g, ws[i], o))
      && (best.Some? ==> Eligible(g, ws[best.value], o))
      && (best.Some? ==> forall i :: 0 <= i < n && Eligible(g, ws[i], o) ==>
            Key(g, ws[best.value], |r.AssignedTo(best.value)|, o, dist) <= Key(g, ws[i], |r.AssignedTo(i)|, o, dist))
      && (best.Some? ==> forall i :: 0 <= i < best.value && Eligible(g, ws[i], o) ==>
            Key(g, ws[best.value], |r.AssignedTo(best.value)|, o, dist) < Key(g, ws[i], |r.AssignedTo(i)|, o, dist))
  {
    if n > 0 {
      ChooseAmongSpec(g, ws, r, o, dist, n - 1);
    }
  }

  /** What `Choose` picks: an eligible warehouse whose key is the least among the eligible
      ones and strictly less than that of every eligible warehouse before it; none exactly
      when no warehouse is eligible. */
  lemma ChooseSpec(g: Greedy, ws: seq<Warehouse>, r: GreedyResult, o: Order, dist: Distance)
    ensures var best := Choose(g, ws, r, o, dist);
      && (best.None? <==> forall i :: 0 <= i < |ws| ==> !Eligible(g, ws[i], o))
      && (best.Some? ==> best.value < |ws| && Eligible(g, ws[best.value], o))
      && (best.Some? ==> forall i :: 0 <= i < |ws| && Eligible(g, ws[i], o) ==>
            Key(g, ws[best.value], |r.AssignedTo(best.value)|, o, dist) <= Key(g, ws[i], |r.AssignedTo(i)|, o, dist))
      && (best.Some? ==> forall i :: 0 <= i < best.value && Eligible(g, ws[i], o) ==>
            Key(g, ws[best.value], |r.AssignedTo(best.value)|, o, dist) < Key(g, ws[i], |r.AssignedTo(i)|, o, dist))
  {
    ChooseAmongSpec(g, ws, r, o, dist, |ws|);
  }

  /** The record strategy `g` appends when warehouse `w` takes order `o` (index `j`). */
  function Record(g: Greedy, w: Warehouse, j: nat, o: Order, dist: Distance): AssignedOrder
  {
    match g
    case ClosestWithInventory =>
      AssignedOrder(j, o.orderId, Some(dist(w.position, o.position)), None, g.Tag())
    case ClosestAny =>
      AssignedOrder(j, o.orderId, Some(dist(w.position, o.position)), Some(!CanFulfill(w, o)), g.Tag())
    case LeastAssigned => AssignedOrder(j, o.orderId, None, None, g.Tag())
    case LeastTotalLoad => AssignedOrder(j, o.orderId, None, None, g.Tag())
  }

  /** `w` with `current_assigned_load` raised by `demand`. */
  function Charged(w: Warehouse, demand: int): Warehouse
  {
    w.(currentAssignedLoad := Some(w.Load() + demand))
  }

  /** Order `o` (index `j`) placed according to `choice`: appended to the chosen warehouse's
      list, whose load grows by the order's demand, or to the unassigned list. */
  function Place(g: Greedy, s: State, j: nat, o: Order, dist: Distance, choice: Option<nat>): (s': State)
    requires choice.Some? ==> choice.value < |s.warehouses|
    ensures |s'.warehouses| == |s.warehouses|
  {
    match choice
    case None =>
      State(s.warehouses, s.result.(unassigned := s.result.unassigned + [UnassignedOrder(j, o.orderId, g.Reason())]))
    case Some(k) =>
      var w := s.warehouses[k];
      State(s.warehouses[k := Charged(w, Demand(o))],
            s.result.(assignments := s.result.assignments[k := s.result.AssignedTo(k) + [Record(g, w, j, o, dist)]]))
  }

  /** One iteration of the outer loop: place order `o` (index `j`) where strategy `g` picks. */
  function Step(g: Greedy, s: State, j: nat, o: Order, dist: Distance): (s': State)
    ensures |s'.warehouses| == |s.warehouses|
  {
    Place(g, s, j, o, dist, Choose(g, s.warehouses, s.result, o, dist))
  }

  /** The state after the first `n` orders have been placed. */
  function Run(g: Greedy, ws: seq<Warehouse>, orders: seq<Order>, dist: Distance, n: nat): (s: State)
    requires n <= |orders|
    ensures |s.warehouses| == |ws|
  {
    if n == 0 then State(ws, GreedyResult(map[], []))
    else Step(g, Run(g, ws, orders, dist, n - 1), n - 1, orders[n - 1], dist)
  }

  /** The body of the inner loop of strategy `g` for warehouse `wh` (index `i`): it replaces
      the best so far when the strategy considers `wh` and its key is strictly smaller than
      `bestKey` (or there is no best yet), recording the key and, for `assign_closest_any`,
      whether `wh` cannot fulfil the order. */
  method Consider(g: Greedy, wh: Warehouse, i: nat, r: GreedyResult, order: Order, demand: int, dist: Distance,
                  best: Option<nat>, bestKey: int, needsRestock: bool)
    returns (best': Option<nat>, bestKey': int, needsRestock': bool)
    requires demand == Demand(order)
    ensures var takes := Eligible(g, wh, order) && (best.None? || Key(g, wh, |r.AssignedTo(i)|, order, dist) < bestKey);
      && best' == (if takes then Some(i) else best)
      && (takes ==> bestKey' == Key(g, wh, |r.AssignedTo(i)|, order, dist) && needsRestock' == !CanFulfill(wh, order))
      && (!takes ==> bestKey' == bestKey && needsRestock' == needsRestock)
  {
    best', bestKey', needsRestock' := best, bestKey, needsRestock;
    var load := wh.Load();
    var (canFulfill, _) := CheckInventoryAvailability(wh.products, order.items);
    match g {
      case ClosestWithInventory =>
        if canFulfill && load < wh.Capacity() {
          var distance := dist(wh.position, order.position);
          if best.None? || distance < bestKey {
            best', bestKey', needsRestock' := Some(i), distance, !canFulfill;
          }
        }
      case ClosestAny =>
        if load < wh.Capacity() {
          var distance := dist(wh.position, order.position);
          if best.None? || distance < bestKey {
            best', bestKey', needsRestock' := Some(i), distance, !canFulfill;
          }
        }
      case LeastAssigned =>
        if load < wh.Capacity() {
          var count := |r.AssignedTo(i)| + wh.PreAssigned();
          if (best.None? || count < bestKey) && canFulfill {
            best', bestKey', needsRestock' := Some(i), count, !canFulfill;
          }
        }
      case LeastTotalLoad =>
        if load + demand <= wh.Capacity() && canFulfill {
          if best.None? || load < bestKey {
            best', bestKey', needsRestock' := Some(i), load, !canFulfill;
          }
        }
    }
  }

  /** The inner loop of strategy `g` for one order: scan the warehouses keeping the best so far,
      replacing it only on a strictly smaller key. Also returns the key of the best warehouse
      (`best_distance` for the closest strategies) and, for `assign_closest_any`, whether it
      cannot fulfil the order. */
  method PickWarehouse(g: Greedy, ws: array<Warehouse>, r: GreedyResult, order: Order, demand: int, dist: Distance)
    returns (best: Option<nat>, bestKey: int, needsRestock: bool)
    requires demand == Demand(order)
    ensures best == Choose(g, ws[..], r, order, dist)
    ensures best.Some? ==> bestKey == Key(g, ws[best.value], |r.AssignedTo(best.value)|, order, dist)
    ensures best.Some? ==> needsRestock == !CanFulfill(ws[best.value], order)
  {
    best, bestKey, needsRestock := None, 0, false;  // bestKey stands for infinity while best is None
    for i := 0 to ws.Length
      invariant best == ChooseAmong(g, ws[..], r, order, dist, i)
      invariant best.Some? ==> bestKey == Key(g, ws[best.value], |r.AssignedTo(best.value)|, order, dist)
      invariant best.Some? ==> needsRestock == !CanFulfill(ws[best.value], order)
    {
      best, bestKey, needsRestock := Consider(g, ws[i], i, r, order, demand, dist, best, bestKey, needsRestock);
    }
  }

  /** The bookkeeping after the inner loop: record order `order` (index `j`) under the picked
      warehouse and raise that warehouse's load, or record the order as unassigned. */
  method Commit(g: Greedy, ws: array<Warehouse>, r: GreedyResult, j: nat, order: Order, dist: Distance,
                best: Option<nat>, bestKey: int, needsRestock: bool)
    returns (r': GreedyResult)
    requires best.Some? ==> best.value < ws.Length
    requires best.Some? ==> bestKey == Key(g, ws[best.value], |r.AssignedTo(best.value)|, order, dist)
    requires best.Some? ==> needsRestock == !CanFulfill(ws[best.value], order)
    modifies ws
    ensures State(ws[..], r') == Place(g, State(old(ws[..]), r), j, order, dist, best)
  {
    match best {
      case Some(k) =>
        var record := match g
          case ClosestWithInventory =>
            AssignedOrder(j, order.orderId, Some(bestKey as nat), None, g.Tag())
          case ClosestAny =>
            AssignedOrder(j, order.orderId, Some(bestKey as nat), Some(needsRestock), g.Tag())
          case LeastAssigned => AssignedOrder(j, order.orderId, None, None, g.Tag())
          case LeastTotalLoad => AssignedOrder(j, order.orderId, None, None, g.Tag());
        assert record == Record(g, ws[k], j, order, dist);
        r' := r.(assignments := r.assignments[k := r.AssignedTo(k) + [record]]);
        var wh := ws[k];
        var demand := Total(order.items);
        ws[k] := wh.(currentAssignedLoad := Some(wh.Load() + demand));
      case None =>
        r' := r.(unassigned := r.unassigned + [UnassignedOrder(j, order.orderId, g.Reason())]);
    }
  }

  /** The `assign_*` function of strategy `g`: updates the warehouses in place and returns the
      assignments and the unassigned orders. */
  method Assign(g: Greedy, ws: array<Warehouse>, orders: seq<Order>, dist: Distance) returns (r: GreedyResult)
    modifies ws
    ensures State(ws[..], r) == Run(g, old(ws[..]), orders, dist, |orders|)
  {
    r := GreedyResult(map[], []);
    for j := 0 to |orders|
      invariant State(ws[..], r) == Run(g, old(ws[..]), orders, dist, j)
    {
      var order := orders[j];
      var demand := Total(order.items);
      var best, bestKey, needsRestock := PickWarehouse(g, ws, r, order, demand, dist);
      r := Commit(g, ws, r, j, order, dist, best, bestKey, needsRestock);
    }
  }
}
