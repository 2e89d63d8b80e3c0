/** What the greedy strategies promise: the pick rule of each strategy, every order placed
    exactly once, the load bookkeeping, and the capacity bound of `assign_least_total_load`. */
module StrategyProperties {

  import opened Wrappers
  import opened Stock
  import opened Inventory
  import opened Strategies

  /** `w'` is `w` with at most its `current_assigned_load` changed. */
  predicate SameExceptLoad(w: Warehouse, w': Warehouse)
  {
    w' == w.(currentAssignedLoad := w'.currentAssignedLoad)
  }

  /** Under `w.Load() < w.Capacity()`-style eligibility, the lowest-distance warehouse wins. */
  predicate IsClosest(ws: seq<Warehouse>, o: Order, dist: Distance, candidate: Warehouse -> bool, k: nat)
  {
    && k < |ws| && candidate(ws[k])
    && (forall i :: 0 <= i < |ws| && candidate(ws[i]) ==> dist(ws[k].position, o.position) <= dist(ws[i].position, o.position))
    && (forall i :: 0 <= i < k && candidate(ws[i]) ==> dist(ws[k].position, o.position) < dist(ws[i].position, o.position))
  }

  /** `assign_closest_with_inventory` picks, among the warehouses that can fulfil the order and
      are below capacity, the first one at the least distance; none when there is no such one. */
  lemma ClosestWithInventoryPick(ws: seq<Warehouse>, r: GreedyResult, o: Order, dist: Distance)
    ensures var candidate := (w: Warehouse) => CanFulfill(w, o) && w.Load() < w.Capacity();
      match Choose(ClosestWithInventory, ws, r, o, dist)
      case None => forall i :: 0 <= i < |ws| ==> !candidate(ws[i])
      case Some(k) => IsClosest(ws, o, dist, candidate, k)
  {
    ChooseSpec(ClosestWithInventory, ws, r, o, dist);
  }

  /** `assign_closest_any` picks the first warehouse below capacity at the least distance,
      whatever its stock, and flags `needs_restock` exactly when that warehouse cannot fulfil
      the order. */
  lemma ClosestAnyPick(ws: seq<Warehouse>, r: GreedyResult, j: nat, o: Order, dist: Distance)
    ensures var candidate := (w: Warehouse) => w.Load() < w.Capacity();
      match Choose(ClosestAny, ws, r, o, dist)
      case None => forall i :: 0 <= i < |ws| ==> !candidate(ws[i])
      case Some(k) =>
        && IsClosest(ws, o, dist, candidate, k)
        && Record(ClosestAny, ws[k], j, o, dist).needsRestock == Some(!CanFulfill(ws[k], o))
        && Record(ClosestAny, ws[k], j, o, dist).distance == Some(dist(ws[k].position, o.position))
  {
    ChooseSpec(ClosestAny, ws, r, o, dist);
  }

  /** `assign_least_assigned` picks, among the warehouses below capacity that can fulfil the
      order, the first one with the fewest orders assigned so far plus `pre_assigned_count`. */
  lemma LeastAssignedPick(ws: seq<Warehouse>, r: GreedyResult, o: Order, dist: Distance)
    ensures var candidate := (w: Warehouse) => w.Load() < w.Capacity() && CanFulfill(w, o);
      match Choose(LeastAssigned, ws, r, o, dist)
      case None => forall i :: 0 <= i < |ws| ==> !candidate(ws[i])
      case Some(k) =>
        && k < |ws| && candidate(ws[k])
        && (forall i :: 0 <= i < |ws| && candidate(ws[i]) ==>
              |r.AssignedTo(k)| + ws[k].PreAssigned() <= |r.AssignedTo(i)| + ws[i].PreAssigned())
        && (forall i :: 0 <= i < k && candidate(ws[i]) ==>
              |r.AssignedTo(k)| + ws[k].PreAssigned() < |r.AssignedTo(i)| + ws[i].PreAssigned())
  {
    ChooseSpec(LeastAssigned, ws, r, o, dist);
  }

  /** `assign_least_total_load` picks, among the warehouses that can take the order's whole
      demand within capacity and can fulfil it, the first one with the least load. */
  lemma LeastTotalLoadPick(ws: seq<Warehouse>, r: GreedyResult, o: Order, dist: Distance)
    ensures var candidate := (w: Warehouse) => w.Load() + Demand(o) <= w.Capacity() && CanFulfill(w, o);
      match Choose(LeastTotalLoad, ws, r, o, dist)
      case None => forall i :: 0 <= i < |ws| ==> !candidate(ws[i])
      case Some(k) =>
        && k < |ws| && candidate(ws[k])
        && (forall i :: 0 <= i < |ws| && candidate(ws[i]) ==> ws[k].Load() <= ws[i].Load())
        && (forall i :: 0 <= i < k && candidate(ws[i]) ==> ws[k].Load() < ws[i].Load())
  {
    ChooseSpec(LeastTotalLoad, ws, r, o, dist);
  }

  /** What `Place` does to the lists and the warehouses, stated per warehouse. */
  lemma PlaceEffect(g: Greedy, s: State, j: nat, o: Order, dist: Distance, c: Option<nat>)
    requires c.Some? ==> c.value < |s.warehouses|
    ensures var s' := Place(g, s, j, o, dist, c);
      match c
      case None =>
        && s'.warehouses == s.warehouses
        && s'.result.assignments == s.result.assignments
        && s'.result.unassigned == s.result.unassigned + [UnassignedOrder(j, o.orderId, g.Reason())]
      case Some(k) =>
        && s'.warehouses == s.warehouses[k := Charged(s.warehouses[k], Demand(o))]
        && s'.result.AssignedTo(k) == s.result.AssignedTo(k) + [Record(g, s.warehouses[k], j, o, dist)]
        && (forall i: nat :: i != k ==> s'.result.AssignedTo(i) == s.result.AssignedTo(i))
        && (forall i :: i in s'.result.assignments <==> i in s.result.assignments || i == k)
        && s'.result.unassigned == s.result.unassigned
  {
  }


  /** One more order: the state after `n` orders is the state after `n - 1` with order
      `n - 1` placed where the strategy picks. */
  lemma RunUnfold(g: Greedy, ws: seq<Warehouse>, orders: seq<Order>, dist: Distance, n: nat)
    requires 0 < n <= |orders|
    ensures var prev := Run(g, ws, orders, dist, n - 1);
      Run(g, ws, orders, dist, n) == Place(g, prev, n - 1, orders[n - 1], dist, Choose(g, prev.warehouses, prev.result, orders[n - 1], dist))
  {
  }

  /** The warehouse a strategy picks is one its inner loop considers. */
  lemma ChosenEligible(g: Greedy, ws: seq<Warehouse>, r: GreedyResult, o: Order, dist: Distance)
    ensures var c := Choose(g, ws, r, o, dist);
      c.Some? ==> c.value < |ws| && Eligible(g, ws[c.value], o)
  {
    ChooseSpec(g, ws, r, o, dist);
  }

  /** Every strategy but `assign_closest_any` only picks a warehouse that can fulfil the order. */
  lemma ChosenCanFulfill(g: Greedy, ws: seq<Warehouse>, r: GreedyResult, o: Order, dist: Distance)
    ensures var c := Choose(g, ws, r, o, dist);
      c.Some? && g != ClosestAny ==> CanFulfill(ws[c.value], o)
  {
    ChosenEligible(g, ws, r, o, dist);
  }

  // Shape of the state

  /** Every entry of `a` has an order index below `n`, and the indices strictly increase. */
  predicate InOrderBelow(a: seq<AssignedOrder>, n: nat)
  {
    && (forall t :: 0 <= t < |a| ==> a[t].orderIndex < n)
    && (forall t, u :: 0 <= t < u < |a| ==> a[t].orderIndex < a[u].orderIndex)
  }

  /** The state `s` after `n` orders, started from `ws`, seen at warehouse `k`: there are as
      many warehouses, warehouse `k` differs from its start only in `current_assigned_load`,
      `k` is a key only if it is a warehouse index, and its list holds order indices below `n`
      in increasing order. */
  predicate ShapeAt(ws: seq<Warehouse>, s: State, n: nat, k: nat)
  {
    && |s.warehouses| == |ws|
    && (k < |ws| ==> SameExceptLoad(ws[k], s.warehouses[k]))
    && (k in s.result.assignments ==> k < |ws|)
    && InOrderBelow(s.result.AssignedTo(k), n)
  }

  /** Placing order `n - 1` keeps the shape, now with indices below `n`. */
  lemma PlaceShapeAt(g: Greedy, ws: seq<Warehouse>, s: State, n: nat, o: Order, dist: Distance, c: Option<nat>, k: nat)
    requires 0 < n
    requires c.Some? ==> c.value < |s.warehouses|
    requires ShapeAt(ws, s, n - 1, k)
    ensures ShapeAt(ws, Place(g, s, n - 1, o, dist, c), n, k)
  {
    var s' := Place(g, s, n - 1, o, dist, c);
    PlaceEffect(g, s, n - 1, o, dist, c);
    var a, a' := s.result.AssignedTo(k), s'.result.AssignedTo(k);
    if c == Some(k) {
      assert forall t :: 0 <= t < |a| ==> a'[t] == a[t];
      assert a'[|a|].orderIndex == n - 1;
    }
  }

  lemma {:induction false} RunShapeAt(g: Greedy, ws: seq<Warehouse>, orders: seq<Order>, dist: Distance, n: nat, k: nat)
    requires n <= |orders|
    ensures ShapeAt(ws, Run(g, ws, orders, dist, n), n, k)
  {
    if n > 0 {
      RunShapeAt(g, ws, orders, dist, n - 1, k);
      var prev := Run(g, ws, orders, dist, n - 1);
      RunUnfold(g, ws, orders, dist, n);
      PlaceShapeAt(g, ws, prev, n, orders[n - 1], dist, Choose(g, prev.warehouses, prev.result, orders[n - 1], dist), k);
    }
  }

  /** Entry `t` of the unassigned list, if there is one, has an order index below `n`. */
  predicate UnassignedBelow(s: State, n: nat, t: nat)
  {
    t < |s.result.unassigned| ==> s.result.unassigned[t].orderIndex < n
  }

  lemma PlaceUnassignedBelow(g: Greedy, s: State, n: nat, o: Order, dist: Distance, c: Option<nat>, t: nat)
    requires 0 < n
    requires c.Some? ==> c.value < |s.warehouses|
    requires UnassignedBelow(s, n - 1, t)
    ensures UnassignedBelow(Place(g, s, n - 1, o, dist, c), n, t)
  {
    PlaceEffect(g, s, n - 1, o, dist, c);
  }

  lemma {:induction false} RunUnassignedAt(g: Greedy, ws: seq<Warehouse>, orders: seq<Order>, dist: Distance, n: nat, t: nat)
    requires n <= |orders|
    ensures UnassignedBelow(Run(g, ws, orders, dist, n), n, t)
  {
    if n > 0 {
      RunUnassignedAt(g, ws, orders, dist, n - 1, t);
      var prev := Run(g, ws, orders, dist, n - 1);
      RunUnfold(g, ws, orders, dist, n);
      PlaceUnassignedBelow(g, prev, n, orders[n - 1], dist, Choose(g, prev.warehouses, prev.result, orders[n - 1], dist), t);
    }
  }

  /** The state `s` after `n` orders, started from `ws`: only loads have changed, only
      warehouse indices are keys, every recorded order index is below `n`, and each
      warehouse's list is in order-list order. */
  ghost predicate Shaped(ws: seq<Warehouse>, s: State, n: nat)
  {
    && |s.warehouses| == |ws|
    && (forall k :: 0 <= k < |ws| ==> SameExceptLoad(ws[k], s.warehouses[k]))
    && (forall k :: k in s.result.assignments ==> k < |ws|)
    && (forall k: nat :: InOrderBelow(s.result.AssignedTo(k), n))
    && (forall t :: 0 <= t < |s.result.unassigned| ==> s.result.unassigned[t].orderIndex < n)
  }

  lemma RunShape(g: Greedy, ws: seq<Warehouse>, orders: seq<Order>, dist: Distance, n: nat)
    requires n <= |orders|
    ensures Shaped(ws, Run(g, ws, orders, dist, n), n)
  {
    var s := Run(g, ws, orders, dist, n);
    forall k: nat
      ensures k < |ws| ==> SameExceptLoad(ws[k], s.warehouses[k])
      ensures k in s.result.assignments ==> k < |ws|
      ensures InOrderBelow(s.result.AssignedTo(k), n)
    {
      RunShapeAt(g, ws, orders, dist, n, k);
    }
    forall t: nat | t < |s.result.unassigned| ensures s.result.unassigned[t].orderIndex < n {
      RunUnassignedAt(g, ws, orders, dist, n, t);
    }
  }

  // Each order placed once

  /** How often order index `v` occurs among the first `n` entries of a warehouse's list. */
  function Occurrences(a: seq<AssignedOrder>, v: nat, n: nat): nat
    requires n <= |a|
  {
    if n == 0 then 0 else Occurrences(a, v, n - 1) + if a[n - 1].orderIndex == v then 1 else 0
  }

  /** How often order index `v` occurs among the first `n` entries of the unassigned list. */
  function UnassignedOccurrences(u: seq<UnassignedOrder>, v: nat, n: nat): nat
    requires n <= |u|
  {
    if n == 0 then 0 else UnassignedOccurrences(u, v, n - 1) + if u[n - 1].orderIndex == v then 1 else 0
  }

  /** The counts only look at the entries they cover. */
  lemma {:induction false} OccurrencesPrefix(a: seq<AssignedOrder>, b: seq<AssignedOrder>, v: nat, n: nat)
    requires n <= |a| && n <= |b|
    requires forall t :: 0 <= t < n ==> a[t] == b[t]
    ensures Occurrences(a, v, n) == Occurrences(b, v, n)
  {
    if n > 0 {
      OccurrencesPrefix(a, b, v, n - 1);
    }
  }

  lemma {:induction false} UnassignedOccurrencesPrefix(u: seq<UnassignedOrder>, w: seq<UnassignedOrder>, v: nat, n: nat)
    requires n <= |u| && n <= |w|
    requires forall t :: 0 <= t < n ==> u[t] == w[t]
    ensures UnassignedOccurrences(u, v, n) == UnassignedOccurrences(w, v, n)
  {
    if n > 0 {
      UnassignedOccurrencesPrefix(u, w, v, n - 1);
    }
  }

  /** How often order index `v` occurs in the lists of warehouses `0 .. m-1`. */
  function AssignedOccurrences(r: GreedyResult, m: nat, v: nat): nat
  {
    if m == 0 then 0 else AssignedOccurrences(r, m - 1, v) + Occurrences(r.AssignedTo(m - 1), v, |r.AssignedTo(m - 1)|)
  }

  /** Number of orders in the lists of warehouses `0 .. m-1`. */
  function TotalAssigned(r: GreedyResult, m: nat): nat
  {
    if m == 0 then 0 else TotalAssigned(r, m - 1) + |r.AssignedTo(m - 1)|
  }

  /** Appending entry `x` to warehouse `k`'s list adds one occurrence of its index, and one
      order, when `k` is among the first `m` warehouses. */
  lemma {:induction false} AssignedAppend(r: GreedyResult, r': GreedyResult, k: nat, x: AssignedOrder, m: nat, v: nat)
    requires r'.AssignedTo(k) == r.AssignedTo(k) + [x]
    requires forall i: nat :: i != k ==> r'.AssignedTo(i) == r.AssignedTo(i)
    ensures AssignedOccurrences(r', m, v) == AssignedOccurrences(r, m, v) + if k < m && x.orderIndex == v then 1 else 0
    ensures TotalAssigned(r', m) == TotalAssigned(r, m) + if k < m then 1 else 0
  {
    if m > 0 {
      AssignedAppend(r, r', k, x, m - 1, v);
      if m - 1 == k {
        var a := r.AssignedTo(k);
        OccurrencesPrefix(a, a + [x], v, |a|);
      }
    }
  }

  /** Lists that agree on every warehouse give the same counts. */
  lemma {:induction false} AssignedSame(r: GreedyResult, r': GreedyResult, m: nat, v: nat)
    requires forall i: nat :: r'.AssignedTo(i) == r.AssignedTo(i)
    ensures AssignedOccurrences(r', m, v) == AssignedOccurrences(r, m, v)
    ensures TotalAssigned(r', m) == TotalAssigned(r, m)
  {
    if m > 0 {
      AssignedSame(r, r', m - 1, v);
    }
  }

  lemma {:induction false} AssignedEmpty(m: nat, v: nat)
    ensures AssignedOccurrences(GreedyResult(map[], []), m, v) == 0
    ensures TotalAssigned(GreedyResult(map[], []), m) == 0
  {
    if m > 0 {
      AssignedEmpty(m - 1, v);
    }
  }

  /** In result `r`, order index `v` occurs once among the lists of the first `m` warehouses
      and the unassigned list when `v < n`, and not at all otherwise; there are `n` entries. */
  predicate CountsAt(r: GreedyResult, m: nat, n: nat, v: nat)
  {
    && UnassignedOccurrences(r.unassigned, v, |r.unassigned|) + AssignedOccurrences(r, m, v) == (if v < n then 1 else 0)
    && TotalAssigned(r, m) + |r.unassigned| == n
  }

  /** Placing order `n - 1` adds one occurrence of `n - 1` and no other index, and one entry. */
  lemma PlaceCounts(g: Greedy, s: State, n: nat, o: Order, dist: Distance, c: Option<nat>, m: nat, v: nat)
    requires 0 < n
    requires m == |s.warehouses|
    requires c.Some? ==> c.value < m
    requires CountsAt(s.result, m, n - 1, v)
    ensures CountsAt(Place(g, s, n - 1, o, dist, c).result, m, n, v)
  {
    var s' := Place(g, s, n - 1, o, dist, c);
    PlaceEffect(g, s, n - 1, o, dist, c);
    var u, u' := s.result.unassigned, s'.result.unassigned;
    match c
    case None =>
      UnassignedOccurrencesPrefix(u, u', v, |u|);
      assert u'[|u|].orderIndex == n - 1;
      AssignedSame(s.result, s'.result, m, v);
    case Some(k) =>
      var x := Record(g, s.warehouses[k], n - 1, o, dist);
      assert x.orderIndex == n - 1;
      AssignedAppend(s.result, s'.result, k, x, m, v);
  }

  lemma {:induction false} RunOccurrencesAt(g: Greedy, ws: seq<Warehouse>, orders: seq<Order>, dist: Distance, n: nat, v: nat)
    requires n <= |orders|
    ensures CountsAt(Run(g, ws, orders, dist, n).result, |ws|, n, v)
  {
    if n == 0 {
      AssignedEmpty(|ws|, v);
    } else {
      RunOccurrencesAt(g, ws, orders, dist, n - 1, v);
      var prev := Run(g, ws, orders, dist, n - 1);
      RunUnfold(g, ws, orders, dist, n);
      PlaceCounts(g, prev, n, orders[n - 1], dist, Choose(g, prev.warehouses, prev.result, orders[n - 1], dist), |ws|, v);
    }
  }

  /** Every index below `n` occurs exactly once among the lists of the first `m` warehouses
      and the unassigned list, and no other index occurs. */
  ghost predicate PlacedOnce(r: GreedyResult, m: nat, n: nat)
  {
    forall v: nat :: UnassignedOccurrences(r.unassigned, v, |r.unassigned|) + AssignedOccurrences(r, m, v) == if v < n then 1 else 0
  }

  /** Every order index below `n` is placed exactly once: in the unassigned list or in one
      warehouse's list, and no other index is placed. */
  lemma RunPlacesEachOrderOnce(g: Greedy, ws: seq<Warehouse>, orders: seq<Order>, dist: Distance, n: nat)
    requires n <= |orders|
    ensures PlacedOnce(Run(g, ws, orders, dist, n).result, |ws|, n)
  {
    var r := Run(g, ws, orders, dist, n).result;
    forall v: nat
      ensures UnassignedOccurrences(r.unassigned, v, |r.unassigned|) + AssignedOccurrences(r, |ws|, v) == if v < n then 1 else 0
    {
      RunOccurrencesAt(g, ws, orders, dist, n, v);
    }
  }

  /** `meta.assigned_count + meta.unassigned_count == meta.orders_count` once every order has
      been placed. */
  lemma AssignedPlusUnassigned(g: Greedy, ws: seq<Warehouse>, orders: seq<Order>, dist: Distance)
    ensures var r := Run(g, ws, orders, dist, |orders|).result;
      TotalAssigned(r, |ws|) + |r.unassigned| == |orders|
  {
    RunOccurrencesAt(g, ws, orders, dist, |orders|, 0);
  }

  // Loads

  /** Sum of the demands of the orders of the first `n` entries of a warehouse's list (an
      index past the order list counts 0; `RunShape` shows there is none). */
  function DemandOf(orders: seq<Order>, a: seq<AssignedOrder>, n: nat): int
    requires n <= |a|
  {
    if n == 0 then 0
    else DemandOf(orders, a, n - 1) + if a[n - 1].orderIndex < |orders| then Demand(orders[a[n - 1].orderIndex]) else 0
  }

  /** The sum only looks at the entries it covers. */
  lemma {:induction false} DemandOfPrefix(orders: seq<Order>, a: seq<AssignedOrder>, b: seq<AssignedOrder>, n: nat)
    requires n <= |a| && n <= |b|
    requires forall t :: 0 <= t < n ==> a[t] == b[t]
    ensures DemandOf(orders, a, n) == DemandOf(orders, b, n)
  {
    if n > 0 {
      DemandOfPrefix(orders, a, b, n - 1);
    }
  }

  /** Warehouse `k` of state `s` has its starting load in `ws` plus the demands of the orders
      in its list. */
  predicate LoadAt(ws: seq<Warehouse>, orders: seq<Order>, s: State, k: nat)
  {
    var a := s.result.AssignedTo(k);
    && k < |ws| && k < |s.warehouses|
    && s.warehouses[k].Load() == ws[k].Load() + DemandOf(orders, a, |a|)
  }

  /** Placing order `n - 1` raises a warehouse's load exactly by the demand it adds to its
      list. */
  lemma PlaceLoadAt(g: Greedy, ws: seq<Warehouse>, orders: seq<Order>, s: State, n: nat, dist: Distance, c: Option<nat>, k: nat)
    requires 0 < n <= |orders|
    requires c.Some? ==> c.value < |s.warehouses|
    requires LoadAt(ws, orders, s, k)
    ensures LoadAt(ws, orders, Place(g, s, n - 1, orders[n - 1], dist, c), k)
  {
    var o := orders[n - 1];
    var s' := Place(g, s, n - 1, o, dist, c);
    PlaceEffect(g, s, n - 1, o, dist, c);
    var a, a' := s.result.AssignedTo(k), s'.result.AssignedTo(k);
    if c == Some(k) {
      DemandOfPrefix(orders, a, a', |a|);
      assert DemandOf(orders, a', |a'|) == DemandOf(orders, a, |a|) + Demand(o);
      assert s'.warehouses[k].Load() == s.warehouses[k].Load() + Demand(o);
    } else {
      assert a' == a && s'.warehouses[k] == s.warehouses[k];
    }
  }

  lemma {:induction false} RunLoadAt(g: Greedy, ws: seq<Warehouse>, orders: seq<Order>, dist: Distance, n: nat, k: nat)
    requires n <= |orders|
    requires k < |ws|
    ensures LoadAt(ws, orders, Run(g, ws, orders, dist, n), k)
  {
    if n > 0 {
      RunLoadAt(g, ws, orders, dist, n - 1, k);
      var prev := Run(g, ws, orders, dist, n - 1);
      RunUnfold(g, ws, orders, dist, n);
      PlaceLoadAt(g, ws, orders, prev, n, dist, Choose(g, prev.warehouses, prev.result, orders[n - 1], dist), k);
    }
  }

  /** Each warehouse's load is its starting load plus the demands of the orders it was given. */
  predicate LoadsMatch(ws: seq<Warehouse>, orders: seq<Order>, s: State)
  {
    && |s.warehouses| == |ws|
    && forall k :: 0 <= k < |ws| ==>
         s.warehouses[k].Load() == ws[k].Load() + DemandOf(orders, s.result.AssignedTo(k), |s.result.AssignedTo(k)|)
  }

  /** Each warehouse's load grew by exactly the demands of the orders it was given. */
  lemma RunLoads(g: Greedy, ws: seq<Warehouse>, orders: seq<Order>, dist: Distance, n: nat)
    requires n <= |orders|
    ensures LoadsMatch(ws, orders, Run(g, ws, orders, dist, n))
  {
    var s := Run(g, ws, orders, dist, n);
    forall k | 0 <= k < |ws|
      ensures s.warehouses[k].Load() == ws[k].Load() + DemandOf(orders, s.result.AssignedTo(k), |s.result.AssignedTo(k)|)
    {
      RunLoadAt(g, ws, orders, dist, n, k);
    }
  }

  // Capacity under least_total_load

  /** No warehouse's load is above its capacity. */
  predicate WithinCapacity(ws: seq<Warehouse>)
  {
    forall k :: 0 <= k < |ws| ==> ws[k].Load() <= ws[k].Capacity()
  }

  /** Warehouse `k`, if there is one, is within its capacity. */
  predicate FitsAt(ws: seq<Warehouse>, k: nat)
  {
    k < |ws| ==> ws[k].Load() <= ws[k].Capacity()
  }

  /** `assign_least_total_load` only gives an order to a warehouse that can take its whole
      demand, so placing it keeps every warehouse within capacity. */
  lemma LeastTotalLoadPlaceFits(s: State, n: nat, o: Order, dist: Distance, k: nat)
    requires 0 < n
    requires FitsAt(s.warehouses, k)
    ensures var c := Choose(LeastTotalLoad, s.warehouses, s.result, o, dist);
      FitsAt(Place(LeastTotalLoad, s, n - 1, o, dist, c).warehouses, k)
  {
    var c := Choose(LeastTotalLoad, s.warehouses, s.result, o, dist);
    ChosenEligible(LeastTotalLoad, s.warehouses, s.result, o, dist);
    PlaceEffect(LeastTotalLoad, s, n - 1, o, dist, c);
  }

  /** Under `assign_least_total_load` a warehouse that starts within capacity stays within it. */
  lemma {:induction false} LeastTotalLoadKeepsCapacityAt(ws: seq<Warehouse>, orders: seq<Order>, dist: Distance, n: nat, k: nat)
    requires n <= |orders|
    requires FitsAt(ws, k)
    ensures FitsAt(Run(LeastTotalLoad, ws, orders, dist, n).warehouses, k)
  {
    if n > 0 {
      LeastTotalLoadKeepsCapacityAt(ws, orders, dist, n - 1, k);
      RunUnfold(LeastTotalLoad, ws, orders, dist, n);
      LeastTotalLoadPlaceFits(Run(LeastTotalLoad, ws, orders, dist, n - 1), n, orders[n - 1], dist, k);
    }
  }

  /** `assign_least_total_load` never overloads a warehouse: loads that start within capacity
      stay within capacity. */
  lemma LeastTotalLoadKeepsCapacity(ws: seq<Warehouse>, orders: seq<Order>, dist: Distance, n: nat)
    requires n <= |orders|
    requires WithinCapacity(ws)
    ensures WithinCapacity(Run(LeastTotalLoad, ws, orders, dist, n).warehouses)
  {
    var s := Run(LeastTotalLoad, ws, orders, dist, n);
    forall k | 0 <= k < |s.warehouses| ensures s.warehouses[k].Load() <= s.warehouses[k].Capacity() {
      LeastTotalLoadKeepsCapacityAt(ws, orders, dist, n, k);
    }
  }

  // Records

  /** Entry `x` of warehouse `k`'s list, for an order below `n`, is the record strategy `g`
      writes for that warehouse's data and that order; outside `assign_closest_any` the
      warehouse could fulfil the order. */
  predicate RecordOk(g: Greedy, ws: seq<Warehouse>, orders: seq<Order>, dist: Distance, k: nat, x: AssignedOrder, n: nat)
    requires n <= |orders| && k < |ws|
  {
    && x.orderIndex < n
    && x == Record(g, ws[k], x.orderIndex, orders[x.orderIndex], dist)
    && (g != ClosestAny ==> CanFulfill(ws[k], orders[x.orderIndex]))
  }

  /** The record written for a warehouse depends only on the fields other than its load. */
  lemma RecordIgnoresLoad(g: Greedy, w: Warehouse, w': Warehouse, j: nat, o: Order, dist: Distance)
    requires SameExceptLoad(w, w')
    ensures Record(g, w', j, o, dist) == Record(g, w, j, o, dist)
    ensures CanFulfill(w', o) == CanFulfill(w, o)
  {
  }

  /** Entry `t` of warehouse `k`'s list in state `s`, if there is one, is the record its
      strategy writes. */
  predicate RecordAt(g: Greedy, ws: seq<Warehouse>, orders: seq<Order>, dist: Distance, s: State, n: nat, k: nat, t: nat)
    requires n <= |orders| && k < |ws|
  {
    var a := s.result.AssignedTo(k);
    t < |a| ==> RecordOk(g, ws, orders, dist, k, a[t], n)
  }

  /** Placing order `n - 1` keeps the earlier entries and appends, if anything, the record of
      the picked warehouse, which differs from its start only in its load. */
  lemma PlaceRecordAt(g: Greedy, ws: seq<Warehouse>, orders: seq<Order>, dist: Distance, s: State, n: nat, k: nat, t: nat)
    requires 0 < n <= |orders| && k < |ws|
    requires ShapeAt(ws, s, n - 1, k)
    requires RecordAt(g, ws, orders, dist, s, n - 1, k, t)
    ensures var c := Choose(g, s.warehouses, s.result, orders[n - 1], dist);
      RecordAt(g, ws, orders, dist, Place(g, s, n - 1, orders[n - 1], dist, c), n, k, t)
  {
    var o := orders[n - 1];
    var c := Choose(g, s.warehouses, s.result, o, dist);
    var a := s.result.AssignedTo(k);
    var a' := Place(g, s, n - 1, o, dist, c).result.AssignedTo(k);
    PlaceEffect(g, s, n - 1, o, dist, c);
    if t < |a| {
      assert a'[t] == a[t];
    } else if c == Some(k) && t == |a| {
      ChosenCanFulfill(g, s.warehouses, s.result, o, dist);
      RecordIgnoresLoad(g, ws[k], s.warehouses[k], n - 1, o, dist);
      assert a'[t] == Record(g, s.warehouses[k], n - 1, o, dist);
    }
  }

  /** After `n` orders, entry `t` of warehouse `k`'s list is the record its strategy writes. */
  lemma {:induction false} RunRecordAt(g: Greedy, ws: seq<Warehouse>, orders: seq<Order>, dist: Distance, n: nat, k: nat, t: nat)
    requires n <= |orders| && k < |ws|
    ensures RecordAt(g, ws, orders, dist, Run(g, ws, orders, dist, n), n, k, t)
  {
    if n > 0 {
      RunRecordAt(g, ws, orders, dist, n - 1, k, t);
      RunShapeAt(g, ws, orders, dist, n - 1, k);
      RunUnfold(g, ws, orders, dist, n);
      PlaceRecordAt(g, ws, orders, dist, Run(g, ws, orders, dist, n - 1), n, k, t);
    }
  }

  /** Each recorded entry is the record its strategy writes for the warehouse's data and the
      order; outside `assign_closest_any` that warehouse could fulfil the order. */
  ghost predicate RecordsMatch(g: Greedy, ws: seq<Warehouse>, orders: seq<Order>, dist: Distance, s: State, n: nat)
    requires n <= |orders|
  {
    forall k, t :: 0 <= k < |ws| && 0 <= t < |s.result.AssignedTo(k)| ==>
      RecordOk(g, ws, orders, dist, k, s.result.AssignedTo(k)[t], n)
  }

  lemma RunRecords(g: Greedy, ws: seq<Warehouse>, orders: seq<Order>, dist: Distance, n: nat)
    requires n <= |orders|
    ensures RecordsMatch(g, ws, orders, dist, Run(g, ws, orders, dist, n), n)
  {
    var s := Run(g, ws, orders, dist, n);
    forall k, t | 0 <= k < |ws| && 0 <= t < |s.result.AssignedTo(k)|
      ensures RecordOk(g, ws, orders, dist, k, s.result.AssignedTo(k)[t], n)
    {
      RunRecordAt(g, ws, orders, dist, n, k, t);
    }
  }
}
