# Vehicle pathfinder and mode-shift gap counter

This project models two parts of the A/B Street traffic simulator in Dafny and proves
properties of the models.

**The vehicle pathfinder** (`map_model/src/pathfind/driving.rs`) works for one mode: car,
bike or bus.
- It turns the map into a weighted graph. Every lane is a node.
- Every turn the mode may take out of a lane it may use becomes an edge. Its weight is the
  per-mode `cost`.
- If the lane with the last id gets no edge, it gets a weight-1 placeholder edge to lane 0.
  This keeps the node set equal to the lane set, whatever the mode, so a contraction
  hierarchy built for one mode can lend its node ordering to the others.
- A query asks the hierarchy for a cheapest node path. The pathfinder turns that path into
  alternating Lane and Turn steps that end on the end lane. Each Turn id is made up from
  the two neighbouring lanes, without looking it up in the map.
- After map edits, the graph is rebuilt with the same node map and the old ordering.

The contraction-hierarchy library (`fast_paths`) is an outside collaborator. Its query is
modelled by a reference shortest-path search, `FastPaths.CalcPath`. Its contract is what
the hierarchy promises: a least-weight walk from the source to the target, or None exactly
when the target cannot be reached.

**The mode-shift gap counter** (`game/src/ungap/predict.rs`) works on a scenario's trips.
- It keeps driving trips between two buildings for which both a driving route and a biking
  route were found, as candidates.
- Four user thresholds select some candidates.
- Every found bike route of a selected candidate is walked. Each step along a high-stress
  road adds one to that road's counter.

Files:
- `road_network.dfy`: lanes, roads, turns, the mode's `can_use` and `get_turns_for`.
- `node_map.dfy`: the lane-to-node map.
- `fast_paths.dfy`: the graph, preparation and the query oracle.
- `driving_cost.dfy`: `cost`.
- `driving.dfy`: `make_input_graph` and `VehiclePathfinder`.
- `predict.dfy`: the filters, candidate selection and `recalculate_gaps`.

Details of what the code does that the model keeps:
- **Path cost unit.** The path cost is the raw weight read as centimeters
  (`Distance::centimeters`, driving.rs:80).
- **Bike rounding.** The bike weight is the penalty times the lane-plus-turn length,
  rounded once (driving.rs:161).
- **Start-lane check.** `pathfind` asserts only that the start lane is not a sidewalk
  (driving.rs:55).
- **Placeholder target.** The placeholder edge always goes to lane 0 (driving.rs:125).
- **Placeholder on routes.** The placeholder can lie on a route. The comment at
  driving.rs:119-122 says no path will use it, because none starts at the last lane.
  `Driving.PlaceholderOnRoute` shows a car route that enters lane 0 through the
  placeholder. The Turn step `pathfind` then makes up for that hop (from the last lane to
  lane 0) names a turn the map does not have, although the comment at driving.rs:68 says
  the turn is known to exist. `Driving.WalkFollowsTurns` proves the placeholder hop is the
  only such case.

## Model

| member | source | states |
|---|---|---|
| Driving.MakeInputGraph | map_model/src/pathfind/driving.rs:99-130 | The loop builds exactly `InputGraphOf(m, c)`: what each lane adds, in `all_lanes` order |
| Driving.AddLaneEdges | map_model/src/pathfind/driving.rs:106-126 | One lane's turn edges, then the placeholder only when it got none and has the last id |
| Driving.AddTurnEdges | map_model/src/pathfind/driving.rs:107-118 | Appends the lane's turn edges (none unless `can_use`); `any` is true exactly when one was added |
| Driving.AddEdgesForTurns | map_model/src/pathfind/driving.rs:110-117 | One edge per turn from `get_turns_for`, in order, from the lane's node to the node of `turn.id.dst`, weighted by `cost` |
| Driving.TurnEdgesAt | map_model/src/pathfind/driving.rs:110-117 | Edge `j` is the edge of turn `j`; there are as many edges as turns |
| Driving.LaneOut | map_model/src/pathfind/driving.rs:106-126 | What one iteration of the lane loop adds: the turn edges, then the placeholder if the lane is padded. `EdgesOfLane` states its contents |
| Driving.InputGraphOf | map_model/src/pathfind/driving.rs:99-130 | The graph `make_input_graph` builds: every lane's edges, in `all_lanes` order. `EdgesOfLane`, `EdgeOrigin` and `InputGraphCoversAllLanes` state what it holds |
| Driving.NoEdgesIffNoTurns | map_model/src/pathfind/driving.rs:107-124 | `any` stays false for a lane exactly when the mode may not use it or it has no usable turn, which is the placeholder condition |
| Driving.EdgesOfLane | map_model/src/pathfind/driving.rs:106-126 | The edges leaving lane `u` are one per usable turn, in turn order, to the turn's destination, weighted by `cost`; then, only for the last lane and only if it had none, one edge to lane 0 of weight 1 |
| Driving.EdgeOrigin | map_model/src/pathfind/driving.rs:106-126 | Every edge of the graph is a usable turn out of a usable lane, or the placeholder of a last lane without usable turns |
| Driving.InputGraphCoversAllLanes | map_model/src/pathfind/driving.rs:119-126 | The edges handed to `add_edge` touch exactly one node per lane, whatever the mode. So one node ordering fits every mode, as long as the library keeps every edge (see Left out) |
| Driving.ShortHopMap | map_model/src/pathfind/driving.rs:136-141 | A well-formed two-lane map for a car, with one turn |
| Driving.ZeroWeightEdge | map_model/src/pathfind/driving.rs:110-126 | A short hop costs 0 after rounding: the last lane's only edge then has weight 0, and it gets no placeholder |
| Driving.WalkFollowsTurns | map_model/src/pathfind/driving.rs:66-73 | Every hop of a walk in the graph is a usable map turn whose id is the one `pathfind` makes up, or the placeholder hop from the last lane to lane 0 |
| Driving.LinkFollowsTurn | map_model/src/pathfind/driving.rs:68-73 | One linked pair of lanes is a usable map turn with the made-up id, or the placeholder pair |
| Driving.PlaceholderOnRoute | map_model/src/pathfind/driving.rs:119-126 | In a map whose last lane is a dead end, the cheapest car route from lane 1 to lane 0 enters lane 0 from the last lane, and the map has no turn with that id |
| Driving.DeadEndMap | map_model/src/pathfind/driving.rs:119-126 | Such dead-end maps exist |
| Driving.TurnBetween | map_model/src/pathfind/driving.rs:69-73 | The made-up turn id goes from the first lane of the pair to the second |
| Driving.WindowSteps | map_model/src/pathfind/driving.rs:66-74 | For `k` lanes, `2(k-1)` steps: lane `i` at position `2i`, then the turn from lane `i` to lane `i+1` at position `2i+1` |
| Driving.StepsOf | map_model/src/pathfind/driving.rs:65-75 | The step loop returns the window steps plus the end lane: `2k-1` steps with lane `i` at position `2i` |
| Driving.AssemblePath | map_model/src/pathfind/driving.rs:65-81 | The built path has those steps, the request's end distance and the weight read as centimeters |
| Driving.AssembleAnswer | map_model/src/pathfind/driving.rs:64-85 | No answer gives None; otherwise the translated raw lanes are assembled into a path |
| Driving.Centimeters | map_model/src/pathfind/driving.rs:80 | `cm` centimeters as meters |
| Driving.InsertAllLanes | map_model/src/pathfind/driving.rs:28-34 | Every lane is inserted, in `all_lanes` order: node `i` is lane `i`, before and regardless of lane types, turns or mode |
| Driving.BuildAndPrepare | map_model/src/pathfind/driving.rs:35-44 | Builds the graph and prepares it with the given ordering verbatim, or with a fresh one when there is none; `unwrap` cannot fail as long as the library keeps every edge (see Left out) |
| Driving.VehiclePathfinder.constructor | map_model/src/pathfind/driving.rs:22-52 | The node map lists the lanes, the graph is the built graph, and with a seed the seed's ordering is reused instead of a fresh one |
| Driving.VehiclePathfinder.Pathfind | map_model/src/pathfind/driving.rs:54-86 | None exactly when the engine finds no path between the two lanes' nodes; otherwise `2k-1` alternating Lane/Turn steps over the raw path, ending on the end lane, and the raw weight as centimeters |
| Driving.VehiclePathfinder.ApplyEdits | map_model/src/pathfind/driving.rs:88-96 | `nodes` and `constraints` are unchanged; `graph` is the edited map's graph with the previous node ordering |
| DrivingCost.Round | map_model/src/pathfind/driving.rs:140 | The rounded value is within one half of its argument |
| DrivingCost.BikePenalty | map_model/src/pathfind/driving.rs:151-158 | The bike penalty is between 1.0 and 1.5 |
| DrivingCost.BusPenalty | map_model/src/pathfind/driving.rs:167-172 | The bus penalty is between 1.0 and 1.1 |
| DrivingCost.TravelTime | map_model/src/pathfind/driving.rs:138-139 | The lane's length over its road's speed limit plus the turn's length over its destination road's limit; never negative |
| DrivingCost.Cost | map_model/src/pathfind/driving.rs:132-177 | Car: travel time rounded; Bike: penalty times lane-plus-turn length, rounded; Bus: penalty times travel time, rounded; Pedestrian and unexpected lane types excluded |
| DrivingCost.UsableLaneHasCost | map_model/src/pathfind/driving.rs:109-115 | Every lane the mode may use is one its cost accepts, so the builder never reaches an assertion in `cost` |
| DrivingCost.BikePenaltyOrder | map_model/src/pathfind/driving.rs:149-161 | For equal distances, a bike lane costs no more than a bus lane, and a bus lane no more than a driving lane |
| DrivingCost.BusCostAtLeastCar | map_model/src/pathfind/driving.rs:163-174 | A bus pays at least a car's cost, and exactly a car's cost on a bus lane |
| DrivingCost.BikeCostIgnoresSpeedLimits | map_model/src/pathfind/driving.rs:143-144 | Changing speed limits leaves the bike cost unchanged |
| DrivingCost.CarHopExample | map_model/src/pathfind/driving.rs:136-141 | A 100 m lane and a 5 m turn at 13 m/s cost a car 8 |
| DrivingCost.BikeLaneExample | map_model/src/pathfind/driving.rs:142-161 | A 60 m bike lane (60) is a cheaper bike edge than a 50 m driving lane (75) |
| FastPaths.NumNodes | map_model/src/pathfind/driving.rs:41 | The node count `prepare_with_order` checks the ordering against: every edge's endpoints lie below it, it is 0 only for no edges, and some edge touches its last node |
| FastPaths.Prepare | map_model/src/pathfind/driving.rs:43 | Preparing keeps the graph and ranks every node |
| FastPaths.PrepareWithOrder | map_model/src/pathfind/driving.rs:41 | Succeeds exactly when the ordering ranks as many nodes as the graph has, and then keeps it verbatim |
| FastPaths.CalcPath | map_model/src/pathfind/driving.rs:60-64 | A least-weight walk from source to target with its weight, or None exactly when no walk exists |
| FastPaths.QueryIgnoresOrdering | map_model/src/pathfind/driving.rs:89-95 | Two hierarchies over the same graph, whatever their orderings, agree on whether the target is reachable and on the least weight. Which equal-weight route each returns may differ |
| FastPaths.MinWeight | map_model/src/pathfind/driving.rs:128 | The frozen graph keeps, for each pair, the least weight among parallel edges |
| FastPaths.WalkExtend | map_model/src/pathfind/driving.rs:60-64 | Extending a walk by an edge adds that edge's weight |
| RoadNetwork.CanUse | map_model/src/pathfind/driving.rs:109 | Whether the mode may use a lane, by lane type: a car drives on driving lanes, a bike on bike, driving and bus lanes, a bus on driving and bus lanes |
| RoadNetwork.TurnsFor | map_model/src/pathfind/driving.rs:110 | A turn is listed exactly when it is a map turn out of the lane into a lane the mode may use; map order is kept |
| NodeMaps.NodeMap.Get | map_model/src/pathfind/driving.rs:107 | The node of a lane in the map is a valid node that stands for that lane |
| NodeMaps.NodeMap.GetOrInsert | map_model/src/pathfind/driving.rs:33 | An existing lane keeps its node; a new lane gets the next fresh node |
| NodeMaps.NodeMap.Translate | map_model/src/pathfind/driving.rs:66 | Each node of a path becomes the lane it stands for |
| NodeMaps.NodeMap.DenseTranslate | map_model/src/pathfind/driving.rs:66 | With node `i` standing for lane `i`, translation changes nothing |
| NodeMaps.DenseNodeMapListsLanes | map_model/src/pathfind/driving.rs:31-34 | The node map of a well-formed map lists exactly its lanes, in order |
| NodeMaps.NodeMapDeterminedByOrder | map_model/src/pathfind/driving.rs:31-34 | A node map is determined by its insertion order |
| ModeShift.DefaultFilters | game/src/ungap/predict.rs:201-208 | 30 minutes of driving, 30 minutes of biking, 10 miles of biking, 30 feet of climb |
| ModeShift.Filters.Apply | game/src/ungap/predict.rs:210-215 | A trip passes when its driving time, biking time, biking distance and elevation gain are each at most the limit. `ApplyIsInclusive`, `ApplyRejectsAboveAnyLimit` and `ApplyMonotone` state its meaning |
| ModeShift.Considered | game/src/ungap/predict.rs:295-299 | Only driving trips from a building to a building are considered |
| ModeShift.CandidateOf | game/src/ungap/predict.rs:295-320 | A trip gives a candidate exactly when it is considered and both its driving and its biking route were found |
| ModeShift.ApplyMonotone | game/src/ungap/predict.rs:210-215 | Loosening any threshold never rejects an accepted trip |
| ModeShift.ApplyIsInclusive | game/src/ungap/predict.rs:210-215 | A trip at exactly the four limits is accepted |
| ModeShift.ApplyRejectsAboveAnyLimit | game/src/ungap/predict.rs:210-215 | A trip above any one limit is rejected |
| ModeShift.Analyze | game/src/ungap/predict.rs:303-320 | A candidate exists exactly when both routes were found, and carries the bike request, both durations, the bike length and its elevation gain |
| ModeShift.SelectCandidates | game/src/ungap/predict.rs:290-325 | There are never more candidates than trips |
| ModeShift.SelectCandidatesMembers | game/src/ungap/predict.rs:295-320 | A candidate is kept exactly when some driving trip between two buildings had both routes found and gives that candidate |
| ModeShift.SelectCandidatesAppend | game/src/ungap/predict.rs:290-325 | Selection goes trip by trip and keeps trip order |
| ModeShift.FilteredRequests | game/src/ungap/predict.rs:360-370 | No more requests than candidates |
| ModeShift.FilterRequests | game/src/ungap/predict.rs:360-370 | The loop returns the bike requests of the accepted candidates, in candidate order |
| ModeShift.FilteredCount | game/src/ungap/predict.rs:371 | `num_filtered_trips` is the number of candidates the filters accept |
| ModeShift.FilteredRequestsAppend | game/src/ungap/predict.rs:360-370 | Filtering goes candidate by candidate and keeps candidate order |
| ModeShift.FilteredCountMonotone | game/src/ungap/predict.rs:360-371 | Looser filters let at least as many trips through |
| ModeShift.StepsAlongCounts | game/src/ungap/predict.rs:381-388 | A route's count for a road is the number of its Along steps on that road |
| ModeShift.MissingRoutesAddNothing | game/src/ungap/predict.rs:374-380 | A request without a route adds nothing to any count |
| ModeShift.RoutesAlongAppend | game/src/ungap/predict.rs:373-389 | Counts over two runs of routes add up |
| ModeShift.RoutesOf | game/src/ungap/predict.rs:374-377 | One route query per filtered request, in order |
| ModeShift.CountAlong | game/src/ungap/predict.rs:373-389 | Each high-stress road's count is the number of Along steps on it across all found routes; every other road counts 0; no key is stored with 0 |
| ModeShift.ModeShiftData.RecalculateGaps | game/src/ungap/predict.rs:340-389 | Candidates and filters are unchanged; `num_filtered_trips` is the accepted count; the counter is as `CountAlong` states for the accepted requests' routes |
| ModeShift.ModeShiftData.FromScenario | game/src/ungap/predict.rs:279-338 | Candidates are selected from the trips, filters are the defaults, then the gaps are calculated once |

## Left out

- The internals of the contraction hierarchy: the ordering heuristic, contraction and the
  bidirectional query. `FastPaths.CalcPath` is a reference search whose contract is the
  library's promise. When several walks share the least weight, the model picks one, and
  that choice stands for whichever one the library returns. Hierarchies prepared with
  different orderings are only promised to agree on reachability and on the least weight
  (`FastPaths.QueryIgnoresOrdering`), not on the route.
- FastPaths.NumNodes / Driving.InputGraphCoversAllLanes: the model assumes `add_edge` keeps
  every edge it is given, since the library is not part of this model. If the library
  skipped loop edges or edges of weight 0, a graph could have fewer nodes than lanes.
  `Driving.ZeroWeightEdge` shows a weight-0 edge can occur, and a one-lane map's
  placeholder is the loop edge 0 to 0. `any` would still be true for the last lane, so it
  would get no placeholder, and `prepare_with_order(..).unwrap()` (driving.rs:41, 95) would
  fail. The claims that one ordering fits every mode and that the `unwrap` cannot fail hold
  under this assumption.
- `FastPaths.Prepare` ranks node `i` at `i`, standing in for the library's ordering heuristic.
- The per-thread path calculators (driving.rs:18-19, 56-59) and `timer.parallelize`
  (predict.rs:290-292, 374-377): they are caches and concurrency, so each query is a
  plain sequential call.
- `check_bike_route` (driving.rs:82-84, 180-202): a diagnostic that only prints.
- `Path::new`: a path is modelled as its steps, its end distance and its cost. What
  `Path::new` derives from them is not modelled.
- Floating point: lengths, speed limits, durations and distances are mathematical reals.
  `round` is round-half-up on non-negative values.
- `DrivingCost.Cost`: does not model `as usize` saturating on weights too large for a
  machine word, because weights are unbounded naturals here.
- `PathConstraints::can_use`, `Map::get_turns_for` and the other `Map` accessors are not
  part of this model. They are modelled by lane type and by filtering the map's turns.
- The lane-type assertions in `cost`, the sidewalk assertion in `pathfind` and the
  `unwrap` after `prepare_with_order` are preconditions rather than panics.
- The node map's internals and serialization.
- `Driving.VehiclePathfinder.Pathfind`: the node-map lookups assume the map has the lanes
  the pathfinder was built for.
- In `predict.rs`:
  - the UI (`ShowGaps`, the top panel, `to_controls`/`from_controls`, drawing with
    `ColorNetwork`, `NetworkGaps`' drawables);
  - the choice of the unedited map (predict.rs:285-289, 341-345);
  - request building, pathfinding, duration and elevation estimates. These are the
    parameters `route` and `routeV2`.
- `high_stress_for_bikes` is not part of this model. It is the parameter
  `highStressForBikes`.
- The mile and the foot in `Distance::miles` and `Distance::feet` are taken to be the
  international ones.
