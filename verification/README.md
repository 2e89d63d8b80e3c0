# Route optimisation core: greedy assignment, job lifecycle and solver payload

This project models the core of a route-optimisation service in Dafny and proves properties of the model. The service has two parts:

- **The Python routing service** (`traffic_ortools_service.py`).
  - It checks whether a warehouse's stock covers an order (`check_inventory_availability`).
  - It assigns each order in turn to one warehouse with one of four greedy strategies: closest warehouse with inventory, closest warehouse at all, fewest assigned orders, or least total load.
  - Each strategy raises the chosen warehouse's `current_assigned_load` in place.
  - It turns the assignments into per-vehicle routes (`format_greedy_result`).
  - `prepare_data` rejects empty requests, resets every load to the pre-assigned load, and dispatches to the named strategy.
  - A job record goes `running`/0 → `processing`/10 → `done`/100 or `error`/100.
- **The PHP planner service** (`RoutePlannerService.php`).
  - `prepareDataForOptimization` builds the solver payload:
    - depot locations first, then order locations;
    - one capacity vector per depot and one demand vector per order, both over one dense index of the inventory's product ids;
    - the vehicle count;
    - the depot indices.
  - `optimizeAsync` and `getJobStatus` turn the outcome of an HTTP call into the array handed back to the caller.

Modules:

| module | file | models |
|---|---|---|
| `Wrappers` | wrappers.dfy | `Option` (a dictionary read with a default) and `Result` |
| `Stock` | stock.dfy | product lines; the last-write-wins quantity of a product-keyed dictionary |
| `Inventory` | inventory.dfy | `check_inventory_availability` |
| `Strategies` | strategies.dfy | the four `assign_*` functions: one method over an `array` of warehouse records, proved against the fold `Run`; the shared "strictly smaller key replaces the best" scan |
| `StrategyProperties` | strategy_properties.dfy | pick rules, placement of every order, load bookkeeping, capacity |
| `Routes` | routes.dfy | `format_greedy_result` |
| `Service` | service.dfy | `prepare_data` |
| `Jobs` | jobs.dfy | `update_job`, job creation, `solve_routing_job` |
| `PhpArrays` | php_arrays.dfy | `explode`, collection `unique()`, `array_flip`, `range` |
| `Planner` | planner.dfy | `prepareDataForOptimization` |
| `PlannerClient` | planner_client.dfy | `optimizeAsync`, `getJobStatus` |

Distances are a parameter `dist: (Point, Point) -> nat`. It stands for the haversine distance truncated to whole metres. Because distances are whole numbers, the selection rules are exact: a strict `<` picks the first index on ties.

Behaviour of the code that a reader might not expect, and that the model keeps:

- **Depot coordinates.** A depot location is the comma-split `long_lat` text, which holds longitude first. An order location is `[latitude, longitude]`, so the two kinds of location list their coordinates in opposite orders.
- **Product index.** It is built from the inventory lines only; the order items do not add to it. An ordered product outside it is not given a zero column; the code looks it up unchecked.
- **Warehouse capacity.** It is the record's `capacity` field, 100 when absent, independent of the stock quantities.
- **Job states.** They are exactly `running`, `processing`, `done` and `error`.
- **`depot_indices`.** It is PHP `range(0, n - 1)`, which for `n == 0` is `[0, -1]`. `PhpArrays.RangeToLast` states both cases.

## Model

| member | source | states |
|---|---|---|
| Stock.LastQuantityAbsent | traffic_ortools_service.py:80-87 | a product no stock line names reads as quantity 0 |
| Stock.LastQuantityIsLast | traffic_ortools_service.py:80-81 | a product some stock line names reads as the quantity of the last such line (later entries overwrite the dictionary) |
| Inventory.CheckInventoryAvailability | traffic_ortools_service.py:75-98 | `can_fulfill` holds exactly when every line item's required quantity is at most the stock's quantity for its product (absent = 0), and exactly when the missing list is empty |
| Inventory.MissingItems | traffic_ortools_service.py:84-96 | every missing entry has `available` = the stock quantity and `shortage = required - available > 0`; at most one entry per line item; the list is empty exactly when the stock covers the order |
| Inventory.MissingItemsConcat | traffic_ortools_service.py:84-96 | missing entries keep line-item order: the list for a concatenation of items is the concatenation of the lists |
| Inventory.MissingItemsFromItems | traffic_ortools_service.py:84-96 | every missing entry reports the product and required quantity of one of the order's line items |
| Strategies.ChooseAmongSpec | traffic_ortools_service.py:111-132 | after scanning the first `n` warehouses the pick is none exactly when none of them is eligible; otherwise it is eligible, its key is the least among the eligible ones and strictly below that of every eligible warehouse before it |
| Strategies.ChooseSpec | traffic_ortools_service.py:114-132 | the warehouse a strategy picks is eligible, has the least key, and is the first with that key; none is picked exactly when no warehouse is eligible |
| StrategyProperties.ClosestWithInventoryPick | traffic_ortools_service.py:114-132 | `assign_closest_with_inventory` picks the first least-distance warehouse among those that can fulfil the order and are below capacity (default 100) |
| StrategyProperties.ClosestAnyPick | traffic_ortools_service.py:173-188 | `assign_closest_any` picks the first least-distance warehouse below capacity, and `needs_restock` is true exactly when that warehouse cannot fulfil the order |
| StrategyProperties.LeastAssignedPick | traffic_ortools_service.py:226-241 | `assign_least_assigned` picks the first warehouse minimising orders-so-far + `pre_assigned_count` among those below capacity that can fulfil the order |
| StrategyProperties.LeastTotalLoadPick | traffic_ortools_service.py:279-294 | `assign_least_total_load` picks the first least-loaded warehouse among those with `load + demand <= capacity` that can fulfil the order |
| Strategies.Consider | traffic_ortools_service.py:114-132 | one pass of the inner loop: the warehouse becomes the best exactly when it is eligible and there is no best yet or its key is strictly below the best key; then the best key becomes its key and `needs_restock` whether it cannot fulfil the order; otherwise nothing changes |
| Strategies.PickWarehouse | traffic_ortools_service.py:114-132 | the inner loop ends with the pick of `ChooseSpec`, its key (the best distance or count), and, for the chosen warehouse, whether it cannot fulfil the order |
| Strategies.Commit | traffic_ortools_service.py:134-155 | the picked warehouse's list gains the strategy's record and its load grows by the order's demand; with no pick the order is appended to `unassigned` with the strategy's reason |
| Strategies.Assign | traffic_ortools_service.py:102-157 | the updated warehouse array and the returned result are those of placing every order in turn by the strategy's rule |
| StrategyProperties.PlaceShapeAt | traffic_ortools_service.py:134-149 | placing one more order changes a warehouse record only in its load, keeps keys to warehouse indices, and appends to a list only the new, largest order index |
| StrategyProperties.RunShape | traffic_ortools_service.py:107-155 | after `n` orders, each warehouse record differs from its start only in `current_assigned_load`; only warehouse indices are keys; each list holds order indices below `n` in increasing order, and so does `unassigned` |
| StrategyProperties.PlaceCounts | traffic_ortools_service.py:134-155 | placing order `n - 1` adds exactly one occurrence of that index, either to one warehouse's list or to `unassigned`, no occurrence of any other index, and one entry in all |
| StrategyProperties.RunPlacesEachOrderOnce | traffic_ortools_service.py:107-155 | every order index lands exactly once, either in one warehouse's list or in `unassigned`, and nothing else lands anywhere |
| StrategyProperties.AssignedPlusUnassigned | traffic_ortools_service.py:107-155 | assigned orders plus unassigned orders equal the number of orders |
| StrategyProperties.PlaceLoadAt | traffic_ortools_service.py:146-149 | placing an order raises the picked warehouse's load by exactly the demand its list gains, and leaves every other load and list as it was |
| StrategyProperties.RunLoads | traffic_ortools_service.py:146-149 | each warehouse's final load is its starting load plus the demands of exactly the orders in its list |
| StrategyProperties.LeastTotalLoadPlaceFits | traffic_ortools_service.py:279-307 | one placement by `assign_least_total_load` keeps a warehouse that was within capacity within capacity |
| StrategyProperties.LeastTotalLoadKeepsCapacity | traffic_ortools_service.py:279-307 | under `assign_least_total_load`, loads that all start within capacity all stay within capacity |
| StrategyProperties.PlaceRecordAt | traffic_ortools_service.py:134-143 | placing an order keeps every earlier list entry and appends only the record the strategy writes for the picked warehouse, which could fulfil the order outside `assign_closest_any` |
| StrategyProperties.RunRecords | traffic_ortools_service.py:136-143 | every list entry is the record the strategy writes for that warehouse and order (distance, `needs_restock`, strategy tag); outside `assign_closest_any` the warehouse could fulfil the order |
| Routes.BuildRoute | traffic_ortools_service.py:369-436 | the loop over a warehouse's orders builds exactly the route `RouteOf`, with its running `total_load` and `total_distance` |
| Routes.CountAssigned | traffic_ortools_service.py:444 | `assigned_count` is the sum over routes of the route length minus 2 |
| Routes.FormatGreedyResult | traffic_ortools_service.py:357-448 | the formatted result is `Format`: one route per warehouse with orders, in warehouse order, followed by the unassigned list, the strategy and the counts |
| Routes.OrderStopsAt | traffic_ortools_service.py:386-408 | order stop `m` is at location `len(warehouses) + order_index`, with the order's demand and the cumulative load of the first `m + 1` orders |
| Routes.RouteShape | traffic_ortools_service.py:372-436 | a route starts at its warehouse with load 0 and ends at its warehouse with `total_load`; its stop `i` (counting from 1) is order `i - 1` of the list, with that order's location, id and demand and the cumulative load of the first `i` orders; its length is `stops_count + 2` |
| Routes.BusyExactlyNonEmpty | traffic_ortools_service.py:360-364 | the warehouses that get a route are exactly those with a non-empty list, in increasing index order |
| Routes.RouteDetailsAreBusy | traffic_ortools_service.py:360-364 | the routes are exactly those of the warehouses with a non-empty list, in index order; a warehouse without orders has no route |
| Routes.AssignedCountIsTotal | traffic_ortools_service.py:444 | `assigned_count` equals the total number of entries in the warehouses' lists |
| Routes.RunFormattable | traffic_ortools_service.py:387-388 | every order index a strategy records names an order of the list, so formatting never indexes outside it |
| Routes.FormattedRunCounts | traffic_ortools_service.py:438-447 | after a full run, `assigned_count + unassigned_count == orders_count`, and each route's `total_load` is exactly the load its warehouse gained |
| Service.GreedyNamed | traffic_ortools_service.py:338-348 | a strategy name selects the greedy strategy with exactly that identifier, and nothing for any other text |
| Service.Initialized | traffic_ortools_service.py:333-335 | after the reset, `current_assigned_load` is `pre_assigned_load` (default 0) and `pre_assigned_count` is set (default 0); nothing else changes |
| Service.PrepareData | traffic_ortools_service.py:319-354 | the warehouse array and the result are those of `PrepareSpec`: an error for empty input, otherwise the reset and the named strategy's formatted result, or nothing for the OR-Tools path |
| Service.PrepareRejectsEmpty | traffic_ortools_service.py:324-327 | the call fails exactly when the warehouse list or the order list is empty; the warehouse check comes first; a failed call changes no warehouse |
| Service.PrepareLoads | traffic_ortools_service.py:333-354 | on accepted input each final load is the pre-assigned load plus the demands of the orders given to that warehouse, or just the pre-assigned load without a greedy strategy |
| Service.PrepareLeastTotalLoadWithinCapacity | traffic_ortools_service.py:333-344 | with `least_total_load`, if every pre-assigned load is within capacity then every final load is within capacity |
| Jobs.Merge | traffic_ortools_service.py:52-57 | updating a record overwrites exactly the given fields and keeps every other field |
| Jobs.JobStore.UpdateJob | traffic_ortools_service.py:52-57 | the job's record becomes the old record (empty when none) merged with the fields, and no other job changes |
| Jobs.JobStore.CreateJob | traffic_ortools_service.py:484-491 | a new job is stored as `running`, progress 0, no result, no error, with its payload and strategy |
| Jobs.JobStore.SolveRoutingJob | traffic_ortools_service.py:537-560 | the record gets the processing fields, then the outcome of `prepare_data`; the warehouses are left as `prepare_data` leaves them |
| Jobs.Lifecycle | traffic_ortools_service.py:537-560 | `running`/0 → `processing`/10 → `done`/100 with no error, or `error`/100 with no result and the message followed by the traceback; payload and strategy survive every step |
| Jobs.SolvedJobStatus | traffic_ortools_service.py:537-560 | a job created for a request and then solved still holds that request as its payload; it is `done` exactly when the request had warehouses and orders; otherwise its error starts with the matching message |
| PhpArrays.Explode | RoutePlannerService.php:38 | splitting on commas yields at least one piece and no piece contains a comma |
| PhpArrays.ImplodeExplode | RoutePlannerService.php:38 | re-joining the pieces with commas gives back the text |
| PhpArrays.FirstCommaAfter | RoutePlannerService.php:38 | in `a,b` with a comma-free `a`, the first comma is the one right after `a` |
| PhpArrays.ExplodeImplode | RoutePlannerService.php:38 | splitting comma-free pieces joined by commas gives back the pieces |
| PhpArrays.Unique | RoutePlannerService.php:33 | the product ids are distinct and are exactly the ids that occur |
| PhpArrays.UniqueOrder | RoutePlannerService.php:33 | the distinct ids are in order of first occurrence |
| PhpArrays.Flip | RoutePlannerService.php:34 | the flipped array has exactly the values as keys, each mapped to a position holding that value |
| PhpArrays.FlipDistinct | RoutePlannerService.php:34 | on distinct values the flip maps `ids[k]` back to `k` |
| PhpArrays.RangeToLast | RoutePlannerService.php:61 | `range(0, n - 1)` is `0 .. n-1` for `n >= 1` and `[0, -1]` for `n == 0` |
| Planner.Tally | RoutePlannerService.php:39-43 | the inner write loop yields the zero vector after the writes `v[index[pid]] = quantity`, in line order |
| Planner.WrittenIsLast | RoutePlannerService.php:39-43 | slot `k` holds the quantity of the last line for product `ids[k]`, and 0 when no line names it |
| Planner.GroupLinesIndexed | RoutePlannerService.php:33-41 | every product in a warehouse's inventory has a slot in the product index |
| Planner.AllGroupLinesIndexed | RoutePlannerService.php:33-41 | the inventory of every warehouse id, present or not, only names products that have a slot in the product index |
| Planner.CapacitiesAreLast | RoutePlannerService.php:37-45 | each capacity vector written from its warehouse's inventory holds, per product, the last quantity that inventory lists for it (0 when none) |
| Planner.DemandsAreLast | RoutePlannerService.php:47-54 | each demand vector written from an order's items holds, per product, the last quantity the order lists for it (0 when none) |
| Planner.AddDepots | RoutePlannerService.php:37-45 | one location (the split `long_lat`) and one capacity vector per warehouse location, in order |
| Planner.AddOrders | RoutePlannerService.php:47-54 | one demand vector per order, and each order's `[latitude, longitude]` appended after the existing locations |
| Planner.PrepareDataForOptimization | RoutePlannerService.php:23-62 | there are as many locations as capacity vectors plus demand vectors; depots come first, then orders, in input order; each capacity or demand entry is the last quantity for that product (0 when absent); `numVehicles` is the warehouse count; `depot_indices` is `range(0, count - 1)` |
| Planner.ProductIndexBijective | RoutePlannerService.php:33-34 | the product index maps the distinct inventory product ids one-to-one onto `0 .. n-1`, earlier first occurrences getting smaller numbers |
| Planner.DepotLocationIsLongitudeFirst | DispatchersController.php:173 | a depot location is `[longitude, latitude]`, the reverse of an order location |
| PlannerClient.OptimizeAsync | RoutePlannerService.php:69-90 | the reply has a non-null `job_id` exactly when the response is 2xx and its body sets `job_id`, and then the reply is just that id; otherwise it carries an error text |
| PlannerClient.OptimizeErrors | RoutePlannerService.php:74-88 | each failure has its own error: the exception message, "request failed" for a non-2xx status, or "missing job_id" for a 2xx response without an id, which includes a body that is not a JSON object |
| PlannerClient.AcceptedSubmission | RoutePlannerService.php:74-77 | the routing service's submission answer yields exactly its job id |
| PlannerClient.GetJobStatus | RoutePlannerService.php:95-107 | the reply is always an array; a 2xx body that decodes to an array (a JSON object or list) is passed through unchanged; any other outcome, including a 2xx body that is empty, not JSON or a scalar, gives exactly `status = 'error'` and a `message` |
| PlannerClient.StatusErrorMessage | RoutePlannerService.php:99-105 | the `message` of a failed status request is the response body for a non-2xx status, the exception's message when the call threw, and the return-type error's message for a 2xx body that is not an array |

## Left out

- Haversine distance and all floating point: the distance is the parameter `dist`, whose values are whole metres.
- `total_distance_km` and its rounding are not modelled. Neither are the display-only fields: `product_name`, the `location_info` and `warehouse_info` names, and the client fields.
- `int()` and `float()` conversions: quantities are integers and coordinates do not enter the model except through `dist`.
- Exceptions other than the two `ValueError`s of `prepare_data` are not modelled. These are missing keys and failed conversions.
- The Flask endpoints, JSON decoding, CORS and thread-pool scheduling are I/O and concurrency. The endpoint's strategy validation and the status endpoint are part of that layer.
- Disk persistence of jobs (`save_job`, `load_job`) is not modelled: `Jobs.JobStore.UpdateJob` reads only the in-memory dictionary.
- Aliasing between the payload stored in a job record and the warehouse records `prepare_data` updates in place is not modelled. The record keeps a value copy.
- Logging (`print`, `Log::error`).
- `prepare_ortools_data` is a stub returning `None`; the model returns no result on that path.
- The framework lookup and data fetch (RoutePlannerService.php:23), configuration reads and HTTP transport are not modelled. The call's outcome is an input.
- PlannerClient.GetJobStatus: the text of PHP's return-type error for a 2xx body that is not an array is generated by the runtime; the model takes it as the parameter `typeError`.
- Planner.PrepareDataForOptimization: it requires every ordered product id to be in the product index. For an unknown id the PHP code reads a missing key and writes to a stray key, which the model does not represent.
- Planner.GroupLines: PHP array keys are unique, so the model takes the first inventory entry for a warehouse id.
