/**
 * The per-mode edge weight of the vehicle pathfinder (`cost` in driving.rs). Lengths are
 * meters and speed limits meters per second, as mathematical reals; the conversion to an
 * integer weight is an explicit rounding.
 */
module DrivingCost {
  import opened RoadNetwork

  /** `f64::round` followed by `as usize`, on a non-negative value: nearest integer, halves up. */
  function Round(x: real): (r: nat)
    requires x >= 0.0
    ensures x - 0.5 < r as real <= x + 0.5
  {
    (x + 0.5).Floor
  }

  lemma RoundMonotone(x: real, y: real)
    requires 0.0 <= x <= y
    ensures Round(x) <= Round(y)
  {
  }

  /** The lane types each mode's cost accepts; any other combination panics in the source. */
  predicate CostDefined(c: PathConstraints, l: Lane)
  {
    match c
    case Pedestrian => false
    case Car => true
    case Bike => l.IsBiking() || l.IsBus() || l.IsDriving()
    case Bus => l.IsBus() || l.IsDriving()
  }

  /** A lane of the map and a turn of the map, as `cost` receives them. */
  predicate LaneAndTurnOf(m: Map, lane: Lane, turn: Turn)
  {
    WellFormed(m) && lane.id < |m.lanes| && m.lanes[lane.id] == lane && turn in m.turns
  }

  /** Bikes prefer bike lanes, then bus lanes, then driving lanes. */
  function BikePenalty(l: Lane): (p: real)
    requires CostDefined(Bike, l)
    ensures 1.0 <= p <= 1.5
  {
    if l.IsBiking() then 1.0 else if l.IsBus() then 1.1 else 1.5
  }

  /** Buses prefer bus lanes. */
  function BusPenalty(l: Lane): (p: real)
    requires CostDefined(PathConstraints.Bus, l)
    ensures 1.0 <= p <= 1.1
  {
    if l.IsBus() then 1.0 else 1.1
  }

  /** Seconds to cross the lane at its road's speed limit plus the turn at the limit of its destination's road. */
  function TravelTime(m: Map, lane: Lane, turn: Turn): (t: real)
    requires LaneAndTurnOf(m, lane, turn)
    ensures t >= 0.0
  {
    var t1 := lane.length / ParentSpeedLimit(m, lane.id);
    var t2 := turn.length / ParentSpeedLimit(m, turn.id.dst);
    assert t1 >= 0.0 && t2 >= 0.0;
    t1 + t2
  }

  /**
   * `cost(lane, turn, constraints, map)`: Car weighs the rounded travel time, Bike the
   * rounded penalised distance (speed limits do not matter), Bus the rounded penalised
   * travel time. Pedestrian is excluded by the precondition (`unreachable!` in the source).
   */
  function Cost(lane: Lane, turn: Turn, c: PathConstraints, m: Map): (r: nat)
    requires LaneAndTurnOf(m, lane, turn) && CostDefined(c, lane)
    ensures c == Car ==>
      TravelTime(m, lane, turn) - 0.5 < r as real <= TravelTime(m, lane, turn) + 0.5
    ensures c == Bike ==>
      BikePenalty(lane) * (lane.length + turn.length) - 0.5 < r as real <=
      BikePenalty(lane) * (lane.length + turn.length) + 0.5
    ensures c == PathConstraints.Bus ==>
      BusPenalty(lane) * TravelTime(m, lane, turn) - 0.5 < r as real <=
      BusPenalty(lane) * TravelTime(m, lane, turn) + 0.5
  {
    if c == Car then
      Round(TravelTime(m, lane, turn))
    else if c == Bike then
      Round(BikePenalty(lane) * (lane.length + turn.length))
    else
      Round(BusPenalty(lane) * TravelTime(m, lane, turn))
  }

  /** Every lane a vehicle mode may use is one its cost function accepts. */
  lemma UsableLaneHasCost(c: PathConstraints, l: Lane)
    requires c != Pedestrian && CanUse(c, l)
    ensures CostDefined(c, l)
  {
  }

  /** For the same distance, a bike lane costs no more than a bus lane, and that no more than a driving lane. */
  lemma BikePenaltyOrder(m: Map, bikeLane: Lane, busLane: Lane, drivingLane: Lane, turn: Turn)
    requires LaneAndTurnOf(m, bikeLane, turn) && LaneAndTurnOf(m, busLane, turn) && LaneAndTurnOf(m, drivingLane, turn)
    requires bikeLane.IsBiking() && busLane.IsBus() && drivingLane.IsDriving()
    requires bikeLane.length == busLane.length == drivingLane.length
    ensures Cost(bikeLane, turn, Bike, m) <= Cost(busLane, turn, Bike, m) <= Cost(drivingLane, turn, Bike, m)
  {
    var d := bikeLane.length + turn.length;
    RoundMonotone(1.0 * d, 1.1 * d);
    RoundMonotone(1.1 * d, 1.5 * d);
  }

  /** A bus never pays less than a car for the same lane and turn, and exactly the same on a bus lane. */
  lemma BusCostAtLeastCar(m: Map, lane: Lane, turn: Turn)
    requires LaneAndTurnOf(m, lane, turn) && CostDefined(PathConstraints.Bus, lane)
    ensures Cost(lane, turn, Car, m) <= Cost(lane, turn, PathConstraints.Bus, m)
    ensures lane.IsBus() ==> Cost(lane, turn, Car, m) == Cost(lane, turn, PathConstraints.Bus, m)
  {
    var t := TravelTime(m, lane, turn);
    RoundMonotone(t, BusPenalty(lane) * t);
  }

  /** The bike weight does not depend on speed limits: changing the roads leaves it alone. */
  lemma BikeCostIgnoresSpeedLimits(m: Map, m': Map, lane: Lane, turn: Turn)
    requires LaneAndTurnOf(m, lane, turn) && LaneAndTurnOf(m', lane, turn) && CostDefined(Bike, lane)
    requires m'.lanes == m.lanes && m'.turns == m.turns
    ensures Cost(lane, turn, Bike, m) == Cost(lane, turn, Bike, m')
  {
  }

  /** A car crossing a 100 m lane and a 5 m turn at 13 m/s pays round(105 / 13) = 8. */
  lemma CarHopExample()
    ensures
      var m := Map([Lane(0, Driving, 0, 1, 100.0), Lane(1, Driving, 0, 2, 100.0)],
                   [Road(0, 13.0)],
                   [Turn(TurnID(1, 0, 1), 5.0)]);
      Cost(m.lanes[0], m.turns[0], Car, m) == 8
  {
    var m := Map([Lane(0, Driving, 0, 1, 100.0), Lane(1, Driving, 0, 2, 100.0)],
                 [Road(0, 13.0)],
                 [Turn(TurnID(1, 0, 1), 5.0)]);
    assert WellFormed(m);
    assert TravelTime(m, m.lanes[0], m.turns[0]) == 105.0 / 13.0;
  }

  /**
   * For a bike, a 50 m driving lane weighs 75 and a parallel 60 m bike lane 60, so the
   * bike lane is the cheaper edge.
   */
  lemma BikeLaneExample()
    ensures
      var m := Map([Lane(0, Driving, 0, 1, 50.0), Lane(1, Biking, 0, 1, 60.0), Lane(2, Driving, 1, 2, 10.0)],
                   [Road(0, 10.0), Road(1, 10.0)],
                   [Turn(TurnID(1, 0, 2), 0.0), Turn(TurnID(1, 1, 2), 0.0)]);
      Cost(m.lanes[0], m.turns[0], Bike, m) == 75 && Cost(m.lanes[1], m.turns[1], Bike, m) == 60
  {
    var m := Map([Lane(0, Driving, 0, 1, 50.0), Lane(1, Biking, 0, 1, 60.0), Lane(2, Driving, 1, 2, 10.0)],
                 [Road(0, 10.0), Road(1, 10.0)],
                 [Turn(TurnID(1, 0, 2), 0.0), Turn(TurnID(1, 1, 2), 0.0)]);
    assert WellFormed(m);
  }
}
