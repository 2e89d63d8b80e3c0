/** `format_greedy_result`: one route per warehouse that received orders, running from the
    warehouse through its orders (in assignment order) back to the warehouse, with cumulative
    loads, plus the summary counts. */
module Routes {

  import opened Wrappers
  import opened Stock
  import opened Strategies
  import opened StrategyProperties

  /** A stop of a route. Warehouse stops carry demand 0; an order stop is located at
      `warehouse count + order index` in the combined location list. */
  datatype Stop =
    | DepotStop(locationIndex: nat, load: int)
    | OrderStop(locationIndex: nat, load: int, demand: int, needsRestock: bool, orderId: int)

  /** One entry of `route_details` (display fields and the kilometre rounding are not modelled). */
  datatype RouteDetail = RouteDetail(
    vehicleId: nat, route: seq<Stop>, totalDistance: nat, totalLoad: int, stopsCount: nat, strategyUsed: string)

  datatype Meta = Meta(warehousesCount: nat, ordersCount: nat, assignedCount: int, unassignedCount: nat)

  datatype Formatted = Formatted(
    routeDetails: seq<RouteDetail>, unassignedOrders: seq<UnassignedOrder>, strategy: string, meta: Meta)

  /** Every entry of `a` names an order of the list (the source indexes `orders` with it). */
  predicate IndicesBelow(a: seq<AssignedOrder>, n: nat)
  {
    forall t :: 0 <= t < |a| ==> a[t].orderIndex < n
  }

  /** The lists of warehouses `0 .. nw-1` only name orders of the list. */
  predicate ResultIndicesBelow(r: GreedyResult, nw: nat, n: nat)
  {
    forall k :: 0 <= k < nw ==> IndicesBelow(r.AssignedTo(k), n)
  }

  /** The stop of entry `x` once the route's running load has reached `load`. */
  function StopFor(nw: nat, orders: seq<Order>, x: AssignedOrder, load: int): Stop
    requires x.orderIndex < |orders|
  {
    var o := orders[x.orderIndex];
    OrderStop(nw + x.orderIndex, load, Demand(o), x.needsRestock.GetOr(false), o.orderId)
  }

  /** The order stops of list `a`, each carrying the load accumulated up to and including it. */
  function OrderStops(nw: nat, orders: seq<Order>, a: seq<AssignedOrder>): (stops: seq<Stop>)
    requires IndicesBelow(a, |orders|)
    ensures |stops| == |a|
  {
    if a == [] then []
    else OrderStops(nw, orders, a[..|a| - 1]) + [StopFor(nw, orders, a[|a| - 1], DemandOf(orders, a, |a|))]
  }

  /** Sum of the recorded distances of `a`, an entry without one counting 0. */
  function DistanceSum(a: seq<AssignedOrder>): nat
  {
    if a == [] then 0 else DistanceSum(a[..|a| - 1]) + a[|a| - 1].distance.GetOr(0)
  }

  /** The route of warehouse `k` with list `a`. */
  function RouteOf(k: nat, nw: nat, orders: seq<Order>, a: seq<AssignedOrder>, strategy: string): RouteDetail
    requires IndicesBelow(a, |orders|)
  {
    var load := DemandOf(orders, a, |a|);
    RouteDetail(k, [DepotStop(k, 0)] + OrderStops(nw, orders, a) + [DepotStop(k, load)],
                DistanceSum(a), load, |a|, strategy)
  }

  /** The routes of warehouses `0 .. m-1`, skipping those with an empty list. */
  function RouteDetails(nw: nat, orders: seq<Order>, r: GreedyResult, strategy: string, m: nat): seq<RouteDetail>
    requires m <= nw && ResultIndicesBelow(r, nw, |orders|)
  {
    if m == 0 then []
    else
      var a := r.AssignedTo(m - 1);
      RouteDetails(nw, orders, r, strategy, m - 1) + if a == [] then [] else [RouteOf(m - 1, nw, orders, a, strategy)]
  }

  /** Sum over the first `n` routes of their length minus the two warehouse stops. */
  function AssignedCount(details: seq<RouteDetail>, n: nat): int
    requires n <= |details|
  {
    if n == 0 then 0 else AssignedCount(details, n - 1) + (|details[n - 1].route| - 2)
  }

  /** The count of the first `n` routes only depends on those routes. */
  lemma {:induction false} AssignedCountPrefix(details: seq<RouteDetail>, details': seq<RouteDetail>, n: nat)
    requires n <= |details| && n <= |details'|
    requires forall t :: 0 <= t < n ==> details[t] == details'[t]
    ensures AssignedCount(details, n) == AssignedCount(details', n)
  {
    if n > 0 {
      AssignedCountPrefix(details, details', n - 1);
    }
  }

  /** The formatted result for `nw` warehouses. */
  function Format(nw: nat, orders: seq<Order>, r: GreedyResult, strategy: string): Formatted
    requires ResultIndicesBelow(r, nw, |orders|)
  {
    var details := RouteDetails(nw, orders, r, strategy, nw);
    Formatted(details, r.unassigned, strategy, Meta(nw, |orders|, AssignedCount(details, |details|), |r.unassigned|))
  }

  /** `format_greedy_result(warehouses, orders, result, strategy)` with its running
      `total_load` and `total_distance` accumulators. */
  method FormatGreedyResult(warehouses: seq<Warehouse>, orders: seq<Order>, result: GreedyResult, strategy: string)
    returns (f: Formatted)
    requires ResultIndicesBelow(result, |warehouses|, |orders|)
    ensures f == Format(|warehouses|, orders, result, strategy)
  {
    var nw := |warehouses|;
    var routeDetails: seq<RouteDetail> := [];
    for k := 0 to nw
      invariant routeDetails == RouteDetails(nw, orders, result, strategy, k)
    {
      var list := result.AssignedTo(k);
      if list != [] {
        var detail := BuildRoute(k, nw, orders, list, strategy);
        routeDetails := routeDetails + [detail];
      }
    }
    var assignedCount := CountAssigned(routeDetails);
    f := Formatted(routeDetails, result.unassigned, strategy, Meta(nw, |orders|, assignedCount, |result.unassigned|));
  }

  /** The body of the warehouse loop for a warehouse with a non-empty list: the route with its
      running `total_load` and `total_distance`. */
  method BuildRoute(k: nat, nw: nat, orders: seq<Order>, list: seq<AssignedOrder>, strategy: string)
    returns (detail: RouteDetail)
    requires IndicesBelow(list, |orders|)
    ensures detail == RouteOf(k, nw, orders, list, strategy)
  {
    var route := [DepotStop(k, 0)];
    var totalLoad := 0;
    var totalDistance := 0;
    for t := 0 to |list|
      invariant route == [DepotStop(k, 0)] + OrderStops(nw, orders, list[..t])
      invariant totalLoad == DemandOf(orders, list, t)
      invariant totalDistance == DistanceSum(list[..t])
    {
      var x := list[t];
      var order := orders[x.orderIndex];
      var orderDemand := Total(order.items);
      assert list[..t + 1][..t] == list[..t];
      DemandOfPrefix(orders, list[..t + 1], list, t + 1);
      totalLoad := totalLoad + orderDemand;
      totalDistance := totalDistance + x.distance.GetOr(0);
      route := route + [OrderStop(nw + x.orderIndex, totalLoad, orderDemand, x.needsRestock.GetOr(false), order.orderId)];
    }
    assert list[..|list|] == list;
    route := route + [DepotStop(k, totalLoad)];
    detail := RouteDetail(k, route, totalDistance, totalLoad, |list|, strategy);
  }

  /** `assigned_count`: the sum over routes of their length minus the two warehouse stops. */
  method CountAssigned(details: seq<RouteDetail>) returns (count: int)
    ensures count == AssignedCount(details, |details|)
  {
    count := 0;
    for i := 0 to |details|
      invariant count == AssignedCount(details, i)
    {
      count := count + (|details[i].route| - 2);
    }
  }

  /** Stop `m` of the order stops is order `a[m]`, at location `nw + a[m].orderIndex`, with the
      load of the first `m + 1` orders. */
  lemma {:induction false} OrderStopsAt(nw: nat, orders: seq<Order>, a: seq<AssignedOrder>, m: nat)
    requires IndicesBelow(a, |orders|) && m < |a|
    ensures OrderStops(nw, orders, a)[m] == StopFor(nw, orders, a[m], DemandOf(orders, a, m + 1))
  {
    if m < |a| - 1 {
      var front := a[..|a| - 1];
      OrderStopsAt(nw, orders, front, m);
      DemandOfPrefix(orders, front, a, m + 1);
    }
  }

  /** The shape of the route of warehouse `k` with a non-empty list `a`: it starts at the
      warehouse with load 0, its stop `i` (from 1) is order `a[i - 1]` at location
      `nw + order index` with the load of the first `i` orders, and it ends at the warehouse
      with the total load. */
  lemma RouteShape(k: nat, nw: nat, orders: seq<Order>, a: seq<AssignedOrder>, strategy: string)
    requires IndicesBelow(a, |orders|)
    ensures var d := RouteOf(k, nw, orders, a, strategy);
      && d.vehicleId == k
      && |d.route| == |a| + 2
      && d.stopsCount == |a|
      && d.route[0] == DepotStop(k, 0)
      && d.route[|a| + 1] == DepotStop(k, d.totalLoad)
      && d.totalLoad == DemandOf(orders, a, |a|)
      && (forall i :: 1 <= i <= |a| ==>
            && d.route[i].OrderStop?
            && d.route[i].locationIndex == nw + a[i - 1].orderIndex
            && d.route[i].load == DemandOf(orders, a, i)
            && d.route[i].demand == Demand(orders[a[i - 1].orderIndex])
            && d.route[i].orderId == orders[a[i - 1].orderIndex].orderId)
  {
    var d := RouteOf(k, nw, orders, a, strategy);
    var stops := OrderStops(nw, orders, a);
    assert d.route == [DepotStop(k, 0)] + stops + [DepotStop(k, d.totalLoad)];
    forall i | 1 <= i <= |a|
      ensures d.route[i] == StopFor(nw, orders, a[i - 1], DemandOf(orders, a, i))
    {
      OrderStopsAt(nw, orders, a, i - 1);
      assert d.route[i] == stops[i - 1];
    }
  }

  /** The warehouses `0 .. m-1` with a non-empty list, in index order. */
  function Busy(r: GreedyResult, m: nat): (ks: seq<nat>)
    ensures forall i :: 0 <= i < |ks| ==> ks[i] < m
  {
    if m == 0 then []
    else Busy(r, m - 1) + if r.AssignedTo(m - 1) == [] then [] else [m - 1]
  }

  /** The busy warehouses are exactly those with a non-empty list, in increasing order. */
  lemma {:induction false} BusyExactlyNonEmpty(r: GreedyResult, m: nat)
    ensures forall k: nat :: k in Busy(r, m) <==> k < m && r.AssignedTo(k) != []
    ensures forall i, j :: 0 <= i < j < |Busy(r, m)| ==> Busy(r, m)[i] < Busy(r, m)[j]
  {
    if m > 0 {
      BusyExactlyNonEmpty(r, m - 1);
    }
  }

  /** The `i`-th route belongs to the `i`-th warehouse with a non-empty list and is that
      warehouse's route: so each warehouse with orders has exactly one route, in index order,
      and a warehouse without orders has none. */
  lemma {:induction false} RouteDetailsAreBusy(nw: nat, orders: seq<Order>, r: GreedyResult, strategy: string, m: nat)
    requires m <= nw && ResultIndicesBelow(r, nw, |orders|)
    ensures var details := RouteDetails(nw, orders, r, strategy, m);
      && |details| == |Busy(r, m)|
      && forall i :: 0 <= i < |details| ==>
           details[i] == RouteOf(Busy(r, m)[i], nw, orders, r.AssignedTo(Busy(r, m)[i]), strategy)
  {
    if m > 0 {
      RouteDetailsAreBusy(nw, orders, r, strategy, m - 1);
      var prev := RouteDetails(nw, orders, r, strategy, m - 1);
      var busy := Busy(r, m - 1);
      var a := r.AssignedTo(m - 1);
      if a == [] {
        assert RouteDetails(nw, orders, r, strategy, m) == prev;
        assert Busy(r, m) == busy;
      } else {
        assert RouteDetails(nw, orders, r, strategy, m) == prev + [RouteOf(m - 1, nw, orders, a, strategy)];
        assert Busy(r, m) == busy + [m - 1];
      }
    }
  }

  /** The routes count every list order: `assigned_count` is the total length of the lists
      of warehouses `0 .. m-1`. */
  lemma {:induction false} AssignedCountIsTotal(nw: nat, orders: seq<Order>, r: GreedyResult, strategy: string, m: nat)
    requires m <= nw && ResultIndicesBelow(r, nw, |orders|)
    ensures var details := RouteDetails(nw, orders, r, strategy, m);
      AssignedCount(details, |details|) == TotalAssigned(r, m)
  {
    if m > 0 {
      AssignedCountIsTotal(nw, orders, r, strategy, m - 1);
      var prev := RouteDetails(nw, orders, r, strategy, m - 1);
      var a := r.AssignedTo(m - 1);
      if a != [] {
        var d := RouteOf(m - 1, nw, orders, a, strategy);
        assert RouteDetails(nw, orders, r, strategy, m) == prev + [d];
        AssignedCountPrefix(prev, prev + [d], |prev|);
        assert |d.route| - 2 == |a|;
      } else {
        assert RouteDetails(nw, orders, r, strategy, m) == prev;
      }
    }
  }

  /** A run of any strategy only names orders of the list, so it can be formatted. */
  lemma RunFormattable(g: Greedy, ws: seq<Warehouse>, orders: seq<Order>, dist: Distance)
    ensures ResultIndicesBelow(Run(g, ws, orders, dist, |orders|).result, |ws|, |orders|)
  {
    RunShape(g, ws, orders, dist, |orders|);
    var r := Run(g, ws, orders, dist, |orders|).result;
    forall k | 0 <= k < |ws| ensures IndicesBelow(r.AssignedTo(k), |orders|) {
      assert InOrderBelow(r.AssignedTo(k), |orders|);
    }
  }

  /** After a full run, `assigned_count + unassigned_count == orders_count`, and each route's
      `total_load` is exactly the load its warehouse gained. */
  lemma FormattedRunCounts(g: Greedy, ws: seq<Warehouse>, orders: seq<Order>, dist: Distance, strategy: string)
    ensures ResultIndicesBelow(Run(g, ws, orders, dist, |orders|).result, |ws|, |orders|)
    ensures var s := Run(g, ws, orders, dist, |orders|);
      var f := Format(|ws|, orders, s.result, strategy);
      && f.meta.assignedCount + f.meta.unassignedCount == f.meta.ordersCount
      && forall i :: 0 <= i < |f.routeDetails| ==>
           var k := f.routeDetails[i].vehicleId;
           k < |ws| && f.routeDetails[i].totalLoad == s.warehouses[k].Load() - ws[k].Load()
  {
    RunFormattable(g, ws, orders, dist);
    var s := Run(g, ws, orders, dist, |orders|);
    AssignedCountIsTotal(|ws|, orders, s.result, strategy, |ws|);
    AssignedPlusUnassigned(g, ws, orders, dist);
    RunLoads(g, ws, orders, dist, |orders|);
    RouteDetailsAreBusy(|ws|, orders, s.result, strategy, |ws|);
  }
}
