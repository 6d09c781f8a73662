/**
 * The mode-shift gap counter of the "ungap the map" tool (`game/src/ungap/predict.rs`):
 * driving trips between buildings that could be biked are kept as candidates, the user's
 * filters select some of them, and the bike routes of the selected ones are walked to
 * count, per high-stress road, how many times a route rides along it.
 *
 * Durations are seconds and distances meters, as mathematical reals that are only
 * compared. Pathfinding, duration and elevation estimates are outside collaborators and
 * appear as function parameters.
 */
module ModeShift {
  import opened Wrappers
  import opened RoadNetwork

  // ---------------------------------------------------------------------------------
  // Trips of a scenario

  datatype TripMode = Walk | Bike | Transit | Drive

  type BuildingID = nat

  datatype TripEndpoint =
    | Bldg(building: BuildingID)
    | Border(border: IntersectionID)
    | SuddenlyAppear(pos: Position)

  datatype Trip = Trip(mode: TripMode, origin: TripEndpoint, destination: TripEndpoint)

  /** What the driving route of a trip contributes: its estimated duration. */
  datatype DriveRoute = DriveRoute(duration: real)

  /**
   * What the biking route of a trip contributes: its request, its duration at the maximum
   * bike speed, its length and its total elevation gain.
   */
  datatype BikeRoute = BikeRoute(req: PathRequest, duration: real, length: real, elevationGain: real)

  /** The routes found for a trip: None where building the request or pathfinding failed. */
  datatype TripRoutes = TripRoutes(drive: Option<DriveRoute>, bike: Option<BikeRoute>)

  datatype CandidateTrip = CandidateTrip(
    bikeReq: PathRequest,
    estimatedDrivingTime: real,
    estimatedBikingTime: real,
    bikingDistance: real,
    totalElevationGain: real)

  // ---------------------------------------------------------------------------------
  // Filters

  /** The international mile and foot, in meters. */
  const MetersPerMile: real := 1609.344
  const MetersPerFoot: real := 0.3048

  datatype Filters = Filters(
    maxDrivingTime: real,
    maxBikingTime: real,
    maxBikingDistance: real,
    maxElevationGain: real)
  {
    /** `Filters::apply`: every one of the four values is within its limit. */
    predicate Apply(x: CandidateTrip)
    {
      x.estimatedDrivingTime <= maxDrivingTime &&
      x.estimatedBikingTime <= maxBikingTime &&
      x.bikingDistance <= maxBikingDistance &&
      x.totalElevationGain <= maxElevationGain
    }

    /** No limit of `this` is tighter than the matching limit of `other`. */
    predicate AtLeastAsLoose(other: Filters)
    {
      maxDrivingTime >= other.maxDrivingTime &&
      maxBikingTime >= other.maxBikingTime &&
      maxBikingDistance >= other.maxBikingDistance &&
      maxElevationGain >= other.maxElevationGain
    }
  }

  /** `Filters::default`: 30 minutes of driving, 30 minutes of biking, 10 miles, 30 feet of climb. */
  function DefaultFilters(): (f: Filters)
    ensures f.maxDrivingTime == 30.0 * 60.0 && f.maxBikingTime == 30.0 * 60.0
    ensures f.maxBikingDistance == 10.0 * MetersPerMile && f.maxElevationGain == 30.0 * MetersPerFoot
  {
    Filters(1800.0, 1800.0, 16093.44, 9.144)
  }

  /** Loosening the limits never rejects a trip that was accepted. */
  lemma ApplyMonotone(f: Filters, g: Filters, x: CandidateTrip)
    requires g.AtLeastAsLoose(f) && f.Apply(x)
    ensures g.Apply(x)
  {
  }

  /** A trip whose four values are the limits themselves is accepted: the limits are inclusive. */
  lemma ApplyIsInclusive(f: Filters, req: PathRequest)
    ensures f.Apply(CandidateTrip(req, f.maxDrivingTime, f.maxBikingTime, f.maxBikingDistance, f.maxElevationGain))
  {
  }

  /** Tightening any one limit below a trip's value rejects it. */
  lemma ApplyRejectsAboveAnyLimit(f: Filters, x: CandidateTrip)
    requires x.estimatedDrivingTime > f.maxDrivingTime || x.estimatedBikingTime > f.maxBikingTime ||
             x.bikingDistance > f.maxBikingDistance || x.totalElevationGain > f.maxElevationGain
    ensures !f.Apply(x)
  {
  }

  // ---------------------------------------------------------------------------------
  // Candidate selection (`from_scenario`)

  /** Only driving trips from one building to another are considered. */
  predicate Considered(t: Trip)
  {
    t.mode == Drive && t.origin.Bldg? && t.destination.Bldg?
  }

  /** A trip becomes a candidate only when both its driving and its biking route were found. */
  function Analyze(routes: TripRoutes): (r: Option<CandidateTrip>)
    ensures r.Some? <==> routes.drive.Some? && routes.bike.Some?
    ensures r.Some? ==>
      r.value.bikeReq == routes.bike.value.req &&
      r.value.estimatedDrivingTime == routes.drive.value.duration &&
      r.value.estimatedBikingTime == routes.bike.value.duration &&
      r.value.bikingDistance == routes.bike.value.length &&
      r.value.totalElevationGain == routes.bike.value.elevationGain
  {
    match (routes.drive, routes.bike)
    case (Some(d), Some(b)) => Some(CandidateTrip(b.req, d.duration, b.duration, b.length, b.elevationGain))
    case _ => None
  }

  /** The candidate the pipeline keeps for trip `t`, if any. */
  function CandidateOf(t: Trip, route: Trip -> TripRoutes): (r: Option<CandidateTrip>)
    ensures r.Some? <==> Considered(t) && route(t).drive.Some? && route(t).bike.Some?
  {
    if Considered(t) then Analyze(route(t)) else None
  }

  /** `all_candidate_trips`: filter the trips, analyze each, keep the ones that succeeded, in order. */
  function SelectCandidates(trips: seq<Trip>, route: Trip -> TripRoutes): (cs: seq<CandidateTrip>)
    ensures |cs| <= |trips|
    decreases |trips|
  {
    if trips == [] then []
    else
      var last := CandidateOf(trips[|trips| - 1], route);
      SelectCandidates(trips[..|trips| - 1], route) + (if last.Some? then [last.value] else [])
  }

  /** Selection works trip by trip: selecting from two runs of trips is selecting from each, in order. */
  lemma {:induction false} SelectCandidatesAppend(a: seq<Trip>, b: seq<Trip>, route: Trip -> TripRoutes)
    ensures SelectCandidates(a + b, route) == SelectCandidates(a, route) + SelectCandidates(b, route)
    decreases |b|
  {
    if b == [] {
      assert a + b == a;
    } else {
      var b' := b[..|b| - 1];
      assert (a + b)[..|a + b| - 1] == a + b';
      assert (a + b)[|a + b| - 1] == b[|b| - 1];
      SelectCandidatesAppend(a, b', route);
    }
  }

  /**
   * A candidate is kept exactly when some trip is a driving trip between buildings whose
   * driving and biking routes were both found and give that candidate.
   */
  lemma {:induction false} SelectCandidatesMembers(trips: seq<Trip>, route: Trip -> TripRoutes, c: CandidateTrip)
    ensures c in SelectCandidates(trips, route) <==>
      exists i :: 0 <= i < |trips| && Considered(trips[i]) && Analyze(route(trips[i])) == Some(c)
    decreases |trips|
  {
    if trips != [] {
      var init := trips[..|trips| - 1];
      SelectCandidatesMembers(init, route, c);
      if exists i :: 0 <= i < |init| && Considered(init[i]) && Analyze(route(init[i])) == Some(c) {
        var i :| 0 <= i < |init| && Considered(init[i]) && Analyze(route(init[i])) == Some(c);
        assert trips[i] == init[i];
      }
      if exists i :: 0 <= i < |trips| && Considered(trips[i]) && Analyze(route(trips[i])) == Some(c) {
        var i :| 0 <= i < |trips| && Considered(trips[i]) && Analyze(route(trips[i])) == Some(c);
        if i < |init| {
          assert init[i] == trips[i];
        }
      }
    }
  }

  // ---------------------------------------------------------------------------------
  // Filtering (`recalculate_gaps`, first half)

  /** The bike requests of the candidates the filters accept, in candidate order. */
  function FilteredRequests(cands: seq<CandidateTrip>, f: Filters): (reqs: seq<PathRequest>)
    ensures |reqs| <= |cands|
    decreases |cands|
  {
    if cands == [] then []
    else
      var x := cands[|cands| - 1];
      FilteredRequests(cands[..|cands| - 1], f) + (if f.Apply(x) then [x.bikeReq] else [])
  }

  /** The positions of the accepted candidates. */
  function Accepted(cands: seq<CandidateTrip>, f: Filters): set<nat>
  {
    set i: nat | i < |cands| && f.Apply(cands[i])
  }

  /** `num_filtered_trips` is the number of candidates the filters accept. */
  lemma {:induction false} FilteredCount(cands: seq<CandidateTrip>, f: Filters)
    ensures |FilteredRequests(cands, f)| == |Accepted(cands, f)|
    decreases |cands|
  {
    if cands != [] {
      var n := |cands| - 1;
      var init := cands[..n];
      FilteredCount(init, f);
      var before := Accepted(init, f);
      assert n !in before;
      if f.Apply(cands[n]) {
        assert Accepted(cands, f) == before + {n};
      } else {
        assert Accepted(cands, f) == before;
      }
    }
  }

  /** Filtering keeps candidate order: filtering two runs of candidates is filtering each, in order. */
  lemma {:induction false} FilteredRequestsAppend(a: seq<CandidateTrip>, b: seq<CandidateTrip>, f: Filters)
    ensures FilteredRequests(a + b, f) == FilteredRequests(a, f) + FilteredRequests(b, f)
    decreases |b|
  {
    if b == [] {
      assert a + b == a;
    } else {
      var b' := b[..|b| - 1];
      assert (a + b)[..|a + b| - 1] == a + b';
      assert (a + b)[|a + b| - 1] == b[|b| - 1];
      FilteredRequestsAppend(a, b', f);
    }
  }

  /** Loosening the filters keeps every request that was kept, and perhaps more. */
  lemma {:induction false} FilteredCountMonotone(cands: seq<CandidateTrip>, f: Filters, g: Filters)
    requires g.AtLeastAsLoose(f)
    ensures |FilteredRequests(cands, f)| <= |FilteredRequests(cands, g)|
  {
    FilteredCount(cands, f);
    FilteredCount(cands, g);
    var a, b := Accepted(cands, f), Accepted(cands, g);
    forall i | i in a ensures i in b {
      ApplyMonotone(f, g, cands[i]);
    }
    assert b == a + (b - a) && a * (b - a) == {};
  }

  // ---------------------------------------------------------------------------------
  // Counting (`recalculate_gaps`, second half)

  datatype Direction = Fwd | Back

  datatype DirectedRoadID = DirectedRoadID(id: RoadID, dir: Direction)

  /** A step of a `PathV2`: along or against a road, or a movement through an intersection. */
  datatype PathStepV2 =
    | Along(dr: DirectedRoadID)
    | Contraflow(dr: DirectedRoadID)
    | Movement(from: DirectedRoadID, to: DirectedRoadID)
    | ContraflowMovement(from: DirectedRoadID, to: DirectedRoadID)

  /** A `Counter<RoadID>`: a missing key counts 0. */
  type Counter = map<RoadID, nat>

  function Get(c: Counter, r: RoadID): nat
  {
    if r in c then c[r] else 0
  }

  /** Whether step `s` rides along road `r`. */
  predicate AlongRoad(s: PathStepV2, r: RoadID)
  {
    s.Along? && s.dr.id == r
  }

  /** How many steps of one route ride along road `r`. */
  function StepsAlong(steps: seq<PathStepV2>, r: RoadID): nat
    decreases |steps|
  {
    if steps == [] then 0
    else StepsAlong(steps[..|steps| - 1], r) + (if AlongRoad(steps[|steps| - 1], r) then 1 else 0)
  }

  /** The positions of the steps that ride along road `r`. */
  function AlongPositions(steps: seq<PathStepV2>, r: RoadID): set<nat>
  {
    set i: nat | i < |steps| && AlongRoad(steps[i], r)
  }

  /** `StepsAlong` counts exactly the steps that ride along the road. */
  lemma {:induction false} StepsAlongCounts(steps: seq<PathStepV2>, r: RoadID)
    ensures StepsAlong(steps, r) == |AlongPositions(steps, r)|
    decreases |steps|
  {
    if steps != [] {
      var n := |steps| - 1;
      var init := steps[..n];
      StepsAlongCounts(init, r);
      var before := AlongPositions(init, r);
      assert n !in before;
      if AlongRoad(steps[n], r) {
        assert AlongPositions(steps, r) == before + {n};
      } else {
        assert AlongPositions(steps, r) == before;
      }
    }
  }

  /** How many steps of all found routes ride along road `r`; a request with no route adds nothing. */
  function RoutesAlong(routes: seq<Option<seq<PathStepV2>>>, r: RoadID): nat
    decreases |routes|
  {
    if routes == [] then 0
    else
      var last := routes[|routes| - 1];
      RoutesAlong(routes[..|routes| - 1], r) + (if last.Some? then StepsAlong(last.value, r) else 0)
  }

  /** Requests with no route change no count. */
  lemma {:induction false} MissingRoutesAddNothing(routes: seq<Option<seq<PathStepV2>>>, r: RoadID)
    ensures RoutesAlong(routes + [None], r) == RoutesAlong(routes, r)
  {
    assert (routes + [None])[..|routes|] == routes;
  }

  /** Counting works route by route: the counts over two runs of routes add up. */
  lemma {:induction false} RoutesAlongAppend(a: seq<Option<seq<PathStepV2>>>, b: seq<Option<seq<PathStepV2>>>, r: RoadID)
    ensures RoutesAlong(a + b, r) == RoutesAlong(a, r) + RoutesAlong(b, r)
    decreases |b|
  {
    if b == [] {
      assert a + b == a;
    } else {
      var b' := b[..|b| - 1];
      assert (a + b)[..|a + b| - 1] == a + b';
      assert (a + b)[|a + b| - 1] == b[|b| - 1];
      RoutesAlongAppend(a, b', r);
    }
  }

  /** The routes of the filtered requests, one per request, None where pathfinding failed. */
  function RoutesOf(reqs: seq<PathRequest>, routeV2: PathRequest -> Option<seq<PathStepV2>>): (routes: seq<Option<seq<PathStepV2>>>)
    ensures |routes| == |reqs| && forall i :: 0 <= i < |reqs| ==> routes[i] == routeV2(reqs[i])
  {
    seq(|reqs|, i requires 0 <= i < |reqs| => routeV2(reqs[i]))
  }

  /** The counter `recalculate_gaps` ends with: Along steps counted on high-stress roads only. */
  ghost predicate CountsAlongHighStress(count: Counter, routes: seq<Option<seq<PathStepV2>>>, highStress: set<RoadID>)
  {
    (forall r :: Get(count, r) == if r in highStress then RoutesAlong(routes, r) else 0) &&
    (forall r :: r in count ==> count[r] > 0)
  }

  /**
   * The mode-shift state (`ModeShiftData`): the candidates from the unedited map, the
   * current filters, the per-road counts of the last recalculation, and how many
   * candidates the filters let through. The drawn layers are not modelled.
   */
  class ModeShiftData {
    var allCandidateTrips: seq<CandidateTrip>
    var filters: Filters
    var countPerRoad: Counter
    var numFilteredTrips: nat

    /**
     * `ModeShiftData::from_scenario`: candidates from the scenario's trips with the default
     * filters, then the gaps are calculated once.
     */
    constructor FromScenario(
      trips: seq<Trip>, route: Trip -> TripRoutes,
      roads: seq<RoadID>, highStressForBikes: RoadID -> bool,
      routeV2: PathRequest -> Option<seq<PathStepV2>>)
      ensures allCandidateTrips == SelectCandidates(trips, route) && filters == DefaultFilters()
      ensures numFilteredTrips == |FilteredRequests(allCandidateTrips, filters)|
      ensures CountsAlongHighStress(countPerRoad,
        RoutesOf(FilteredRequests(allCandidateTrips, filters), routeV2),
        set r | r in roads && highStressForBikes(r))
    {
      allCandidateTrips := SelectCandidates(trips, route);
      filters := DefaultFilters();
      countPerRoad := map[];
      numFilteredTrips := 0;
      new;
      RecalculateGaps(roads, highStressForBikes, routeV2);
    }

    /**
     * `recalculate_gaps`: the high-stress roads, the requests of the accepted candidates,
     * their count, and for every route found one increment of the road's counter per Along
     * step on a high-stress road.
     */
    method RecalculateGaps(
      roads: seq<RoadID>, highStressForBikes: RoadID -> bool,
      routeV2: PathRequest -> Option<seq<PathStepV2>>)
      modifies this
      ensures allCandidateTrips == old(allCandidateTrips) && filters == old(filters)
      ensures numFilteredTrips == |FilteredRequests(allCandidateTrips, filters)|
      ensures CountsAlongHighStress(countPerRoad,
        RoutesOf(FilteredRequests(allCandidateTrips, filters), routeV2),
        set r | r in roads && highStressForBikes(r))
    {
      var highStress := set r | r in roads && highStressForBikes(r);
      var filtered := FilterRequests(allCandidateTrips, filters);
      numFilteredTrips := |filtered|;
      var routes := RoutesOf(filtered, routeV2);
      countPerRoad := CountAlong(routes, highStress);
    }
  }

  /** The filter_map over the candidates: the bike request of every accepted candidate, in order. */
  method FilterRequests(cands: seq<CandidateTrip>, f: Filters) returns (reqs: seq<PathRequest>)
    ensures reqs == FilteredRequests(cands, f)
  {
    reqs := [];
    for i := 0 to |cands|
      invariant reqs == FilteredRequests(cands[..i], f)
    {
      if f.Apply(cands[i]) {
        reqs := reqs + [cands[i].bikeReq];
      }
      assert cands[..i + 1][..i] == cands[..i];
    }
    assert cands[..|cands|] == cands;
  }

  /** The nested counting loop over the found routes and their steps. */
  method CountAlong(routes: seq<Option<seq<PathStepV2>>>, highStress: set<RoadID>) returns (count: Counter)
    ensures CountsAlongHighStress(count, routes, highStress)
  {
    count := map[];
    for i := 0 to |routes|
      invariant CountsAlongHighStress(count, routes[..i], highStress)
    {
      assert routes[..i + 1][..i] == routes[..i];
      if routes[i].Some? {
        var steps := routes[i].value;
        ghost var before := count;
        for j := 0 to |steps|
          invariant forall r :: Get(count, r) == Get(before, r) + (if r in highStress then StepsAlong(steps[..j], r) else 0)
          invariant forall r :: r in count ==> count[r] > 0
        {
          assert steps[..j + 1][..j] == steps[..j];
          var step := steps[j];
          if step.Along? && step.dr.id in highStress {
            count := count[step.dr.id := Get(count, step.dr.id) + 1];
          }
        }
        assert steps[..|steps|] == steps;
      }
    }
    assert routes[..|routes|] == routes;
  }
}
