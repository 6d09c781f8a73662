/**
 * The parts of the road network (`Map`, `Lane`, `Road`, `Turn`, `PathConstraints`)
 * that the vehicle pathfinder consumes. The network itself is an outside collaborator:
 * it is represented here only by the attributes the pathfinder reads.
 */
module RoadNetwork {

  type LaneID = nat
  type RoadID = nat
  type IntersectionID = nat

  datatype LaneType =
    | Driving | Parking | Sidewalk | Shoulder | Biking | Bus
    | SharedLeftTurn | Construction | LightRail | Buffer

  /** A directed lane; `length` is in meters. */
  datatype Lane = Lane(id: LaneID, laneType: LaneType, parent: RoadID, dstI: IntersectionID, length: real)
  {
    predicate IsDriving() { laneType == Driving }
    predicate IsBiking() { laneType == Biking }
    predicate IsBus() { laneType == LaneType.Bus }
    predicate IsSidewalk() { laneType == Sidewalk }
  }

  /** A road; `speedLimit` is in meters per second. */
  datatype Road = Road(id: RoadID, speedLimit: real)

  datatype TurnID = TurnID(parent: IntersectionID, src: LaneID, dst: LaneID)

  /** A movement between two lanes; `length` is the length of its geometry in meters. */
  datatype Turn = Turn(id: TurnID, length: real)

  datatype PathConstraints = Pedestrian | Car | Bike | Bus

  /** A position along a lane (`dist_along` in meters). */
  datatype Position = Position(lane: LaneID, distAlong: real)

  datatype PathRequest = PathRequest(start: Position, end: Position, constraints: PathConstraints)

  datatype Map = Map(lanes: seq<Lane>, roads: seq<Road>, turns: seq<Turn>)

  /**
   * What the network guarantees: lanes and roads are stored at the index of their id,
   * lengths are non-negative, speed limits positive, every turn joins two lanes of the map,
   * and a vehicle turn passes through the intersection at the end of its source lane.
   */
  predicate WellFormed(m: Map)
  {
    (forall i :: 0 <= i < |m.lanes| ==>
      m.lanes[i].id == i && m.lanes[i].parent < |m.roads| && m.lanes[i].length >= 0.0) &&
    (forall r :: 0 <= r < |m.roads| ==> m.roads[r].id == r && m.roads[r].speedLimit > 0.0) &&
    (forall t :: t in m.turns ==> TurnInMap(m, t))
  }

  predicate TurnInMap(m: Map, t: Turn)
  {
    t.id.src < |m.lanes| && t.id.dst < |m.lanes| && t.length >= 0.0 &&
    (!m.lanes[t.id.src].IsSidewalk() ==> t.id.parent == m.lanes[t.id.src].dstI)
  }

  /** `PathConstraints::can_use`, decided here by the lane type alone. */
  predicate CanUse(c: PathConstraints, l: Lane)
  {
    match c
    case Pedestrian => l.laneType == Sidewalk || l.laneType == Shoulder
    case Car => l.IsDriving()
    case Bike => l.IsBiking() || l.IsDriving() || l.IsBus()
    case Bus => l.IsDriving() || l.IsBus()
  }

  /** The speed limit of the road that owns lane `l` (`map.get_parent(l)`). */
  function ParentSpeedLimit(m: Map, l: LaneID): (v: real)
    requires WellFormed(m) && l < |m.lanes|
    ensures v > 0.0
  {
    m.roads[m.lanes[l].parent].speedLimit
  }

  /**
   * `Map::get_turns_for(l, c)`: the turns leaving lane `l` whose destination the mode
   * may use, in the map's order.
   */
  function TurnsFor(m: Map, l: LaneID, c: PathConstraints): (r: seq<Turn>)
    requires WellFormed(m)
    ensures forall t :: t in r <==> t in m.turns && t.id.src == l && CanUse(c, m.lanes[t.id.dst])
  {
    FilterTurns(m, m.turns, l, c)
  }

  function FilterTurns(m: Map, ts: seq<Turn>, l: LaneID, c: PathConstraints): (r: seq<Turn>)
    requires forall t :: t in ts ==> t.id.dst < |m.lanes|
    ensures forall t :: t in r <==> t in ts && t.id.src == l && CanUse(c, m.lanes[t.id.dst])
  {
    if ts == [] then []
    else
      var rest := FilterTurns(m, ts[1..], l, c);
      if ts[0].id.src == l && CanUse(c, m.lanes[ts[0].id.dst]) then [ts[0]] + rest else rest
  }
}
