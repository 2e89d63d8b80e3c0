/** `prepare_data`: reject an empty request, reset every warehouse's running load to its
    pre-assigned load, then run the greedy strategy the request names and format its result. */
module Service {

  import opened Wrappers
  import opened Stock
  import opened Strategies
  import opened StrategyProperties
  import opened Routes

  const NoWarehouses := "No warehouses provided"
  const NoOrders := "No orders provided"

  /** The greedy strategy whose identifier is `s`; none for `ortools_balanced`, `zone_based`
      and any other text. */
  function GreedyNamed(s: string): (g: Option<Greedy>)
    ensures g.Some? ==> g.value.Name() == s
    ensures forall h: Greedy :: h.Name() == s ==> g == Some(h)
  {
    if s == ClosestWithInventory.Name() then Some(ClosestWithInventory)
    else if s == ClosestAny.Name() then Some(ClosestAny)
    else if s == LeastAssigned.Name() then Some(LeastAssigned)
    else if s == LeastTotalLoad.Name() then Some(LeastTotalLoad)
    else None
  }

  /** A warehouse after the reset: its running load is its pre-assigned load and its
      pre-assigned count is set, each 0 when absent. */
  function Initialized(w: Warehouse): (w': Warehouse)
    ensures w'.currentAssignedLoad == Some(w.preAssignedLoad.GetOr(0))
    ensures w'.preAssignedCount == Some(w.PreAssigned())
    ensures SameExceptLoad(w, w'.(preAssignedCount := w.preAssignedCount))
  {
    w.(currentAssignedLoad := Some(w.preAssignedLoad.GetOr(0)), preAssignedCount := Some(w.PreAssigned()))
  }

  function InitializeAll(ws: seq<Warehouse>): (ws': seq<Warehouse>)
    ensures |ws'| == |ws| && forall i :: 0 <= i < |ws| ==> ws'[i] == Initialized(ws[i])
  {
    seq(|ws|, i requires 0 <= i < |ws| => Initialized(ws[i]))
  }

  /** What `prepare_data` leaves in the warehouse list, and what it returns: an error message
      (the raised `ValueError`), the formatted greedy result, or nothing (the OR-Tools path,
      whose data preparation returns `None`). */
  function PrepareSpec(ws: seq<Warehouse>, orders: seq<Order>, strategy: string, dist: Distance)
    : (seq<Warehouse>, Result<Option<Formatted>, string>)
  {
    if ws == [] then (ws, Err(NoWarehouses))
    else if orders == [] then (ws, Err(NoOrders))
    else
      var init := InitializeAll(ws);
      match GreedyNamed(strategy)
      case None => (init, Ok(None))
      case Some(g) =>
        var s := Run(g, init, orders, dist, |orders|);
        RunFormattable(g, init, orders, dist);
        (s.warehouses, Ok(Some(Format(|ws|, orders, s.result, strategy))))
  }

  /** `prepare_data(payload, strategy)` on the payload's warehouse list (updated in place) and
      order list (an absent key reads as an empty list). */
  method PrepareData(ws: array<Warehouse>, orders: seq<Order>, strategy: string, dist: Distance)
    returns (r: Result<Option<Formatted>, string>)
    modifies ws
    ensures (ws[..], r) == PrepareSpec(old(ws[..]), orders, strategy, dist)
  {
    if ws.Length == 0 {
      return Err(NoWarehouses);
    }
    if |orders| == 0 {
      return Err(NoOrders);
    }
    ghost var ws0 := ws[..];
    for i := 0 to ws.Length
      invariant forall j :: 0 <= j < i ==> ws[j] == Initialized(ws0[j])
      invariant forall j :: i <= j < ws.Length ==> ws[j] == ws0[j]
    {
      var w := ws[i];
      ws[i] := w.(currentAssignedLoad := Some(w.preAssignedLoad.GetOr(0)), preAssignedCount := Some(w.PreAssigned()));
    }
    assert ws[..] == InitializeAll(ws0);
    if strategy != "ortools_balanced" {
      var g: Option<Greedy> := None;
      if strategy == "closest_with_inventory" {
        g := Some(ClosestWithInventory);
      } else if strategy == "closest_any" {
        g := Some(ClosestAny);
      } else if strategy == "least_assigned_orders" {
        g := Some(LeastAssigned);
      } else if strategy == "least_total_load" {
        g := Some(LeastTotalLoad);
      }
      assert g == GreedyNamed(strategy);
      if g.Some? {
        ghost var init := ws[..];
        var result := Assign(g.value, ws, orders, dist);
        RunFormattable(g.value, init, orders, dist);
        var f := FormatGreedyResult(ws[..], orders, result, strategy);
        return Ok(Some(f));
      }
    }
    return Ok(None);
  }

  /** `prepare_data` raises exactly on an empty warehouse list or an empty order list, the
      warehouse check first, and then leaves the warehouses untouched. */
  lemma PrepareRejectsEmpty(ws: seq<Warehouse>, orders: seq<Order>, strategy: string, dist: Distance)
    ensures var (ws', r) := PrepareSpec(ws, orders, strategy, dist);
      && (r.Err? <==> ws == [] || orders == [])
      && (ws == [] ==> r == Err(NoWarehouses))
      && (ws != [] && orders == [] ==> r == Err(NoOrders))
      && (r.Err? ==> ws' == ws)
  {
  }

  /** On an accepted request each warehouse ends with its pre-assigned load (0 when absent)
      plus the demands of the orders the strategy gave it; without a greedy strategy no order
      is placed and the load is just the pre-assigned one. */
  lemma PrepareLoads(ws: seq<Warehouse>, orders: seq<Order>, strategy: string, dist: Distance)
    requires ws != [] && orders != []
    ensures var (ws', r) := PrepareSpec(ws, orders, strategy, dist);
      && |ws'| == |ws|
      && r.Ok?
      && (GreedyNamed(strategy).None? <==> r.value.None?)
      && (GreedyNamed(strategy).None? ==> forall k :: 0 <= k < |ws| ==> ws'[k].Load() == ws[k].preAssignedLoad.GetOr(0))
      && (GreedyNamed(strategy).Some? ==>
            var g := GreedyNamed(strategy).value;
            var s := Run(g, InitializeAll(ws), orders, dist, |orders|);
            forall k :: 0 <= k < |ws| ==>
              ws'[k].Load() == ws[k].preAssignedLoad.GetOr(0) + DemandOf(orders, s.result.AssignedTo(k), |s.result.AssignedTo(k)|))
  {
    if GreedyNamed(strategy).Some? {
      RunLoads(GreedyNamed(strategy).value, InitializeAll(ws), orders, dist, |orders|);
    }
  }

  /** With `least_total_load`, if every pre-assigned load is within capacity then so is every
      load once the orders are placed. */
  lemma PrepareLeastTotalLoadWithinCapacity(ws: seq<Warehouse>, orders: seq<Order>, dist: Distance)
    requires ws != [] && orders != []
    requires forall k :: 0 <= k < |ws| ==> ws[k].preAssignedLoad.GetOr(0) <= ws[k].Capacity()
    ensures WithinCapacity(PrepareSpec(ws, orders, LeastTotalLoad.Name(), dist).0)
  {
    var init := InitializeAll(ws);
    assert WithinCapacity(init);
    LeastTotalLoadKeepsCapacity(init, orders, dist, |orders|);
  }
}
