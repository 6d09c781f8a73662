/**
 * The vehicle pathfinder (`VehiclePathfinder` in driving.rs): one graph per vehicle mode
 * whose nodes are all lanes of the map and whose edges are the turns the mode may take,
 * weighted by `cost`; a prepared hierarchy over it; path queries that turn the raw node
 * sequence into Lane/Turn steps; and rebuilding after map edits with the old node ordering.
 */
module Driving {
  import opened Wrappers
  import opened RoadNetwork
  import opened NodeMaps
  import opened FastPaths
  import opened DrivingCost

  datatype PathStep = LaneStep(lane: LaneID) | TurnStep(turn: TurnID)

  /**
   * What `Path::new` is given: the steps, the distance along the last lane where the path
   * ends, and the total cost as a distance in meters.
   */
  datatype Path = Path(steps: seq<PathStep>, endDist: real, cost: real)

  /** `Distance::centimeters(cm)`, in meters. */
  function Centimeters(cm: nat): (d: real)
    ensures d * 100.0 == cm as real
  {
    cm as real / 100.0
  }

  // ---------------------------------------------------------------------------------
  // make_input_graph

  /**
   * What `make_input_graph` is called with: a well-formed map and a vehicle mode. The node
   * map it is also given holds every lane inserted in id order, so node `i` is lane `i`
   * (`DenseNodeMapListsLanes`); the functions below therefore name nodes by lane id.
   */
  predicate BuildInputs(m: Map, c: PathConstraints)
  {
    WellFormed(m) && c != Pedestrian
  }

  /** One edge per turn in `ts`: from the lane's node to the turn's destination node, weighted by `cost`. */
  function TurnEdges(m: Map, c: PathConstraints, lane: Lane, ts: seq<Turn>): seq<Edge>
    requires BuildInputs(m, c) && lane.id < |m.lanes| && m.lanes[lane.id] == lane && CanUse(c, lane)
    requires forall t :: t in ts ==> t in m.turns
    decreases |ts|
  {
    if ts == [] then [] else TurnEdges(m, c, lane, ts[..|ts| - 1]) + [TurnEdge(m, c, lane, ts[|ts| - 1])]
  }

  lemma {:induction false} TurnEdgesAt(m: Map, c: PathConstraints, lane: Lane, ts: seq<Turn>)
    requires BuildInputs(m, c) && lane.id < |m.lanes| && m.lanes[lane.id] == lane && CanUse(c, lane)
    requires forall t :: t in ts ==> t in m.turns
    ensures |TurnEdges(m, c, lane, ts)| == |ts|
    ensures forall j :: 0 <= j < |ts| ==> TurnEdges(m, c, lane, ts)[j] == TurnEdge(m, c, lane, ts[j])
    decreases |ts|
  {
    if ts != [] {
      TurnEdgesAt(m, c, lane, ts[..|ts| - 1]);
    }
  }

  function TurnEdge(m: Map, c: PathConstraints, lane: Lane, t: Turn): Edge
    requires BuildInputs(m, c) && lane.id < |m.lanes| && m.lanes[lane.id] == lane && CanUse(c, lane)
    requires t in m.turns
  {
    assert TurnInMap(m, t);
    Edge(lane.id, t.id.dst, Cost(lane, t, c, m))
  }

  lemma {:induction false} TurnEdgesSnoc(m: Map, c: PathConstraints, lane: Lane, ts: seq<Turn>, j: nat)
    requires BuildInputs(m, c) && lane.id < |m.lanes| && m.lanes[lane.id] == lane && CanUse(c, lane)
    requires forall t :: t in ts ==> t in m.turns
    requires j < |ts|
    ensures TurnEdges(m, c, lane, ts[..j + 1]) ==
      TurnEdges(m, c, lane, ts[..j]) + [TurnEdge(m, c, lane, ts[j])]
  {
    assert ts[..j + 1][..j] == ts[..j];
  }

  /** The edges added for lane `l` by the turn loop: none unless the mode may use the lane. */
  function LaneEdges(m: Map, c: PathConstraints, l: LaneID): seq<Edge>
    requires BuildInputs(m, c) && l < |m.lanes|
  {
    if CanUse(c, m.lanes[l]) then TurnEdges(m, c, m.lanes[l], TurnsFor(m, l, c)) else []
  }

  /** The placeholder edge: only for a lane that is `Padded`, to lane 0 with weight 1. */
  function PlaceholderEdges(m: Map, c: PathConstraints, l: LaneID): seq<Edge>
    requires BuildInputs(m, c) && l < |m.lanes|
  {
    if Padded(m, c, l) then [Edge(l, 0, 1)] else []
  }

  /** Everything added for lane `l`: its turn edges, then the placeholder if it gets one. */
  function LaneOut(m: Map, c: PathConstraints, l: LaneID): seq<Edge>
    requires BuildInputs(m, c) && l < |m.lanes|
  {
    LaneEdges(m, c, l) + PlaceholderEdges(m, c, l)
  }

  /** What each lane adds, in `all_lanes` order. */
  function LaneBlocks(m: Map, c: PathConstraints): (bs: seq<seq<Edge>>)
    requires BuildInputs(m, c)
    ensures |bs| == |m.lanes|
  {
    seq(|m.lanes|, l requires 0 <= l < |m.lanes| => LaneOut(m, c, l))
  }

  /** The input graph `make_input_graph` builds. */
  function InputGraphOf(m: Map, c: PathConstraints): InputGraph
    requires BuildInputs(m, c)
  {
    Concat(LaneBlocks(m, c))
  }

  /** `make_input_graph(map, nodes, constraints)`. */
  method MakeInputGraph(m: Map, nodes: NodeMap, c: PathConstraints) returns (g: InputGraph)
    requires BuildInputs(m, c) && nodes.Dense(|m.lanes|)
    ensures g == InputGraphOf(m, c)
  {
    g := [];
    var numLanes := |m.lanes|;
    ghost var blocks := LaneBlocks(m, c);
    for i := 0 to |m.lanes|
      invariant g == Concat(blocks[..i])
    {
      g := AddLaneEdges(m, nodes, c, m.lanes[i], numLanes, g);
      assert blocks[i] == LaneOut(m, c, i);
      ConcatSnoc(blocks, i);
    }
    assert blocks[..|m.lanes|] == blocks;
  }


  /**
   * One iteration of the lane loop of `make_input_graph`: the lane's turn edges, then the
   * placeholder edge to lane 0 if the lane got none and has the last id.
   */
  method AddLaneEdges(m: Map, nodes: NodeMap, c: PathConstraints, l: Lane, numLanes: nat, g: InputGraph)
    returns (g': InputGraph)
    requires BuildInputs(m, c) && nodes.Dense(|m.lanes|) && l.id < |m.lanes| && m.lanes[l.id] == l
    requires numLanes == |m.lanes|
    ensures g' == g + LaneOut(m, c, l.id)
  {
    var from := nodes.Get(l.id);
    var any;
    g', any := AddTurnEdges(m, nodes, c, l, g);
    NoEdgesIffNoTurns(m, c, l.id);
    if !any && l.id == numLanes - 1 {
      g' := g' + [Edge(from, nodes.Get(0), 1)];
    }
  }

  /**
   * The turn loop of `make_input_graph` for one lane: an edge per turn the mode may take
   * out of it, if the mode may use the lane at all; `any` tells whether one was added.
   */
  method AddTurnEdges(m: Map, nodes: NodeMap, c: PathConstraints, l: Lane, g: InputGraph)
    returns (g': InputGraph, any: bool)
    requires BuildInputs(m, c) && nodes.Dense(|m.lanes|) && l.id < |m.lanes| && m.lanes[l.id] == l
    ensures g' == g + LaneEdges(m, c, l.id)
    ensures any <==> LaneEdges(m, c, l.id) != []
  {
    g' := g;
    any := false;
    if CanUse(c, l) {
      var turns := TurnsFor(m, l.id, c);
      g', any := AddEdgesForTurns(m, nodes, c, l, turns, g);
    }
  }

  /** The loop body of `AddTurnEdges`, run over `turns`: one edge per turn, in order. */
  method AddEdgesForTurns(m: Map, nodes: NodeMap, c: PathConstraints, l: Lane, turns: seq<Turn>, g: InputGraph)
    returns (g': InputGraph, any: bool)
    requires BuildInputs(m, c) && nodes.Dense(|m.lanes|) && l.id < |m.lanes| && m.lanes[l.id] == l && CanUse(c, l)
    requires forall t :: t in turns ==> t in m.turns
    ensures g' == g + TurnEdges(m, c, l, turns)
    ensures any <==> turns != []
  {
    g' := g;
    any := false;
    var from := nodes.Get(l.id);
    for j := 0 to |turns|
      invariant any <==> j > 0
      invariant g' == g + TurnEdges(m, c, l, turns[..j])
    {
      var t := turns[j];
      assert TurnInMap(m, t);
      var e := Edge(from, nodes.Get(t.id.dst), Cost(l, t, c, m));
      assert e == TurnEdge(m, c, l, t);
      any := true;
      g' := g' + [e];
      TurnEdgesSnoc(m, c, l, turns, j);
    }
    assert turns[..|turns|] == turns;
  }

  // ---------------------------------------------------------------------------------
  // What the built graph is

  /** Block `l` of the graph holds only edges out of lane `l`. */
  lemma LaneBlocksLeaveOwnLane(m: Map, c: PathConstraints)
    requires BuildInputs(m, c)
    ensures BlocksLeaveOwnNode(LaneBlocks(m, c))
  {
    var bs := LaneBlocks(m, c);
    forall l: nat, e: Edge | l < |bs| && e in bs[l] ensures e.from == l {
      if e in LaneEdges(m, c, l) {
        var ts := TurnsFor(m, l, c);
        TurnEdgesAt(m, c, m.lanes[l], ts);
        var j :| 0 <= j < |ts| && TurnEdges(m, c, m.lanes[l], ts)[j] == e;
      }
    }
  }

  /** The usable turns of lane `u`: none when the mode may not use the lane. */
  function UsableTurns(m: Map, c: PathConstraints, u: LaneID): seq<Turn>
    requires WellFormed(m) && u < |m.lanes|
  {
    if CanUse(c, m.lanes[u]) then TurnsFor(m, u, c) else []
  }

  /** Whether lane `u` gets the placeholder edge: it has the last id and no usable turn. */
  predicate Padded(m: Map, c: PathConstraints, u: LaneID)
    requires WellFormed(m) && u < |m.lanes|
  {
    u == |m.lanes| - 1 && UsableTurns(m, c, u) == []
  }

  /**
   * The edges leaving lane `u` are exactly one per usable turn, in turn order, to the
   * turn's destination and weighted by `cost`; then, for the last lane only and only if
   * it had none, one edge to lane 0 of weight 1.
   */
  lemma {:induction false} EdgesOfLane(m: Map, c: PathConstraints, u: LaneID)
    requires BuildInputs(m, c) && u < |m.lanes|
    ensures
      var out := Outgoing(InputGraphOf(m, c), u);
      var turns := UsableTurns(m, c, u);
      |out| == |turns| + (if Padded(m, c, u) then 1 else 0) &&
      (forall j :: 0 <= j < |turns| ==> out[j] == Edge(u, turns[j].id.dst, Cost(m.lanes[u], turns[j], c, m))) &&
      (Padded(m, c, u) ==> out[|turns|] == Edge(u, 0, 1))
  {
    OutgoingIsLaneOut(m, c, u);
    if CanUse(c, m.lanes[u]) {
      TurnEdgesAt(m, c, m.lanes[u], TurnsFor(m, u, c));
    }
  }

  /** The edges leaving lane `u` are what the loop added for lane `u`. */
  lemma OutgoingIsLaneOut(m: Map, c: PathConstraints, u: LaneID)
    requires BuildInputs(m, c) && u < |m.lanes|
    ensures Outgoing(InputGraphOf(m, c), u) == LaneOut(m, c, u)
  {
    LaneBlocksLeaveOwnLane(m, c);
    OutgoingOfConcat(LaneBlocks(m, c), u);
  }

  /** An edge that stands for a usable turn out of a usable lane. */
  ghost predicate IsTurnEdge(m: Map, c: PathConstraints, e: Edge)
    requires WellFormed(m) && c != Pedestrian
  {
    e.from < |m.lanes| && CanUse(c, m.lanes[e.from]) &&
    exists t :: t in TurnsFor(m, e.from, c) && e.to == t.id.dst && e.weight == Cost(m.lanes[e.from], t, c, m)
  }

  /** The placeholder edge of a last lane without usable turns. */
  ghost predicate IsPlaceholderEdge(m: Map, c: PathConstraints, e: Edge)
    requires WellFormed(m)
  {
    |m.lanes| > 0 && Padded(m, c, |m.lanes| - 1) && e == Edge(|m.lanes| - 1, 0, 1)
  }

  /** Every edge of the graph is a usable turn, or the placeholder. */
  lemma EdgeOrigin(m: Map, c: PathConstraints, e: Edge)
    requires BuildInputs(m, c) && e in InputGraphOf(m, c)
    ensures IsTurnEdge(m, c, e) || IsPlaceholderEdge(m, c, e)
  {
    EdgeInOwnBlock(m, c, e);
    var u := e.from;
    if e in LaneEdges(m, c, u) {
      LaneEdgeIsTurnEdge(m, c, u, e);
    } else {
      PlaceholderIsPlaceholderEdge(m, c, u, e);
    }
  }

  lemma PlaceholderIsPlaceholderEdge(m: Map, c: PathConstraints, u: LaneID, e: Edge)
    requires BuildInputs(m, c) && u < |m.lanes| && e in PlaceholderEdges(m, c, u)
    ensures IsPlaceholderEdge(m, c, e)
  {
  }

  /** A lane gets no turn edge exactly when it has no usable turn. */
  lemma NoEdgesIffNoTurns(m: Map, c: PathConstraints, u: LaneID)
    requires BuildInputs(m, c) && u < |m.lanes|
    ensures LaneEdges(m, c, u) == [] <==> UsableTurns(m, c, u) == []
  {
    if CanUse(c, m.lanes[u]) {
      TurnEdgesAt(m, c, m.lanes[u], TurnsFor(m, u, c));
    }
  }

  lemma LaneEdgeIsTurnEdge(m: Map, c: PathConstraints, u: LaneID, e: Edge)
    requires BuildInputs(m, c) && u < |m.lanes| && e in LaneEdges(m, c, u)
    ensures IsTurnEdge(m, c, e)
  {
    var ts := TurnsFor(m, u, c);
    TurnEdgesAt(m, c, m.lanes[u], ts);
    var j :| 0 <= j < |ts| && TurnEdges(m, c, m.lanes[u], ts)[j] == e;
    assert ts[j] in TurnsFor(m, u, c);
  }

  /** An edge of the graph sits in the block of the lane it leaves. */
  lemma EdgeInOwnBlock(m: Map, c: PathConstraints, e: Edge)
    requires BuildInputs(m, c) && e in InputGraphOf(m, c)
    ensures e.from < |m.lanes| && e in LaneOut(m, c, e.from)
  {
    LaneBlocksLeaveOwnLane(m, c);
    OutgoingOfConcat(LaneBlocks(m, c), e.from);
    assert e in Outgoing(InputGraphOf(m, c), e.from);
  }


  /**
   * The edge list has exactly one node per lane, whatever the mode: this is what lets every
   * mode's hierarchy reuse one node ordering, as long as the library keeps every edge it
   * is given (`ZeroWeightEdge` shows an edge of weight 0 can be among them).
   */
  lemma InputGraphCoversAllLanes(m: Map, c: PathConstraints)
    requires BuildInputs(m, c)
    ensures NumNodes(InputGraphOf(m, c)) == |m.lanes|
  {
    var g := InputGraphOf(m, c);
    var n := NumNodes(g);
    forall e | e in g ensures e.from < |m.lanes| && e.to < |m.lanes| {
      EdgeOrigin(m, c, e);
      if IsTurnEdge(m, c, e) {
        var t :| t in TurnsFor(m, e.from, c) && e.to == t.id.dst && e.weight == Cost(m.lanes[e.from], t, c, m);
        assert TurnInMap(m, t);
      }
    }
    if |m.lanes| > 0 {
      var last := |m.lanes| - 1;
      EdgesOfLane(m, c, last);
      var out := Outgoing(g, last);
      assert out[0] in g;
    } else {
      assert g == [];
    }
  }

  /** A movement from lane `u` to lane `v` that the map has as a usable turn, with the id the pathfinder synthesises. */
  ghost predicate IsMapTurn(m: Map, c: PathConstraints, u: LaneID, v: LaneID)
    requires WellFormed(m) && u < |m.lanes|
  {
    CanUse(c, m.lanes[u]) && exists t :: t in TurnsFor(m, u, c) && t.id == TurnBetween(m, u, v)
  }

  /**
   * Step `i` of a walk: from lane `p[i]` to lane `p[i + 1]` by a usable turn of the map whose
   * id is `TurnID { parent: dst_i of p[i], src: p[i], dst: p[i + 1] }`, or else the
   * placeholder pair from the last lane to lane 0.
   */
  ghost predicate StepFollowsTurn(m: Map, c: PathConstraints, p: seq<nat>, i: nat)
    requires WellFormed(m) && i + 1 < |p|
  {
    p[i] < |m.lanes| && p[i + 1] < |m.lanes| &&
    (IsMapTurn(m, c, p[i], p[i + 1]) || (p[i] == |m.lanes| - 1 && p[i + 1] == 0 && Padded(m, c, p[i])))
  }

  /** Every step of a walk in the graph is a usable turn of the map, or the placeholder. */
  lemma WalkFollowsTurns(m: Map, c: PathConstraints, p: seq<nat>)
    requires BuildInputs(m, c) && IsWalk(InputGraphOf(m, c), p)
    ensures forall i: nat :: i + 1 < |p| ==> StepFollowsTurn(m, c, p, i)
  {
    forall i: nat | i + 1 < |p| ensures StepFollowsTurn(m, c, p, i) {
      assert Linked(InputGraphOf(m, c), p[i], p[i + 1]);
      LinkFollowsTurn(m, c, p[i], p[i + 1]);
    }
  }

  /** One linked pair of the graph is a usable turn of the map, or the placeholder. */
  lemma LinkFollowsTurn(m: Map, c: PathConstraints, u: nat, v: nat)
    requires BuildInputs(m, c) && Linked(InputGraphOf(m, c), u, v)
    ensures u < |m.lanes| && v < |m.lanes|
    ensures IsMapTurn(m, c, u, v) || (u == |m.lanes| - 1 && v == 0 && Padded(m, c, u))
  {
    var g := InputGraphOf(m, c);
    var e := Edge(u, v, MinWeight(g, u, v).value);
    EdgeOrigin(m, c, e);
    if IsTurnEdge(m, c, e) {
      var t :| t in TurnsFor(m, e.from, c) && e.to == t.id.dst && e.weight == Cost(m.lanes[e.from], t, c, m);
      assert TurnInMap(m, t);
      assert t.id == TurnBetween(m, u, v);
    }
  }

  /** Three driving lanes; the only turn goes from lane 1 to lane 2, which is a dead end. */
  predicate DeadEnd(m: Map)
  {
    WellFormed(m) && |m.lanes| == 3 &&
    m.lanes[0].IsDriving() && m.lanes[1].IsDriving() && m.lanes[2].IsDriving() &&
    |m.turns| == 1 && m.turns[0].id == TurnID(m.lanes[1].dstI, 1, 2)
  }

  /** Such maps exist. */
  function DeadEndMap(): (m: Map)
    ensures DeadEnd(m)
  {
    var m := Map([Lane(0, Driving, 0, 1, 10.0), Lane(1, Driving, 0, 1, 10.0),
                  Lane(2, Driving, 0, 2, 10.0)],
                 [Road(0, 10.0)],
                 [Turn(TurnID(1, 1, 2), 0.0)]);
    assert WellFormed(m);
    m
  }

  /**
   * The placeholder edge is not only reached from the last lane: when the last lane is a
   * dead end that other lanes turn into, a car route into lane 0 runs through it, and the
   * step before lane 0 is a turn from lane 2 to lane 0 that the map does not have.
   */
  lemma PlaceholderOnRoute(m: Map)
    requires DeadEnd(m)
    ensures BuildInputs(m, Car) && NumNodes(InputGraphOf(m, Car)) == 3
    ensures
      var raw := CalcPath(Prepare(InputGraphOf(m, Car)), 1, 0);
      raw.Some? && |raw.value.nodes| >= 2 && raw.value.nodes[|raw.value.nodes| - 2] == 2 &&
      forall t :: t in m.turns ==> t.id != TurnBetween(m, 2, 0)
  {
    var g := InputGraphOf(m, Car);
    InputGraphCoversAllLanes(m, Car);
    DeadEndLinks(m);
    forall x | Linked(g, x, 0) ensures x == 2 {
      DeadEndIntoLaneZero(m, x);
    }
    CalcPathThrough(Prepare(g), 1, 2, 0);
  }

  /** In a dead-end map, a car may go from lane 1 to lane 2, and from lane 2 on to lane 0. */
  lemma DeadEndLinks(m: Map)
    requires DeadEnd(m)
    ensures BuildInputs(m, Car)
    ensures var g := InputGraphOf(m, Car); Linked(g, 1, 2) && Linked(g, 2, 0)
  {
    var g := InputGraphOf(m, Car);
    assert m.turns[1..] == [];
    assert FilterTurns(m, m.turns[1..], 1, Car) == [];
    assert CanUse(Car, m.lanes[2]);
    assert TurnsFor(m, 1, Car) == [m.turns[0]] + [];
    assert TurnsFor(m, 2, Car) == [];
    EdgesOfLane(m, Car, 1);
    EdgesOfLane(m, Car, 2);
    assert Outgoing(g, 1)[0] in g && Outgoing(g, 2)[0] in g;
  }

  /** In a dead-end map, only the placeholder edge enters lane 0. */
  lemma DeadEndIntoLaneZero(m: Map, x: nat)
    requires DeadEnd(m) && Linked(InputGraphOf(m, Car), x, 0)
    ensures x == 2
  {
    var g := InputGraphOf(m, Car);
    var e := Edge(x, 0, MinWeight(g, x, 0).value);
    EdgeOrigin(m, Car, e);
  }

  /** Two driving lanes at 13 m/s; the only turn goes from the 1 m lane 1 to lane 0 and has no length. */
  function ShortHopMap(): (m: Map)
    ensures BuildInputs(m, Car) && |m.lanes| == 2 && |m.turns| == 1
  {
    var m := Map([Lane(0, Driving, 0, 1, 10.0), Lane(1, Driving, 0, 1, 1.0)],
                 [Road(0, 13.0)],
                 [Turn(TurnID(1, 1, 0), 0.0)]);
    assert WellFormed(m);
    m
  }

  /**
   * `cost` rounds, so a short hop weighs 0: the car graph of `ShortHopMap` has the edge
   * from lane 1 to lane 0 of weight 0 as the last lane's only edge, and no placeholder.
   */
  lemma ZeroWeightEdge()
    ensures var m := ShortHopMap();
      !Padded(m, Car, 1) && Outgoing(InputGraphOf(m, Car), 1) == [Edge(1, 0, 0)]
  {
    var m := ShortHopMap();
    assert m.turns[1..] == [];
    assert FilterTurns(m, m.turns[1..], 1, Car) == [];
    assert TurnsFor(m, 1, Car) == [m.turns[0]] + [];
    assert TravelTime(m, m.lanes[1], m.turns[0]) == 1.0 / 13.0;
    EdgesOfLane(m, Car, 1);
  }

  // ---------------------------------------------------------------------------------
  // Turning a raw path into steps

  /** The turn id `pathfind` synthesises between consecutive lanes, without looking it up. */
  function TurnBetween(m: Map, u: LaneID, v: LaneID): (id: TurnID)
    requires u < |m.lanes|
    ensures id.src == u && id.dst == v
  {
    TurnID(m.lanes[u].dstI, u, v)
  }

  /** All lanes of `ids` are lanes of the map. */
  predicate LanesOf(m: Map, ids: seq<LaneID>)
  {
    forall i :: 0 <= i < |ids| ==> ids[i] < |m.lanes|
  }

  /**
   * The steps pushed for the windows of two of `ids`: each lane but the last, followed by
   * the turn to the next lane.
   */
  function WindowSteps(m: Map, ids: seq<LaneID>): (steps: seq<PathStep>)
    requires LanesOf(m, ids)
    ensures |steps| == if ids == [] then 0 else 2 * (|ids| - 1)
    ensures forall i :: 0 <= i < |ids| - 1 ==>
      steps[2 * i] == LaneStep(ids[i]) && steps[2 * i + 1] == TurnStep(TurnBetween(m, ids[i], ids[i + 1]))
    decreases |ids|
  {
    if |ids| < 2 then []
    else
      var init := ids[..|ids| - 1];
      assert forall i :: 0 <= i < |init| ==> init[i] == ids[i];
      WindowSteps(m, init) + [LaneStep(ids[|ids| - 2]), TurnStep(TurnBetween(m, ids[|ids| - 2], ids[|ids| - 1]))]
  }

  /**
   * The step loop of `pathfind`: for each window of two lanes, the first lane and the turn
   * to the second; then the end lane. Lanes sit at the even positions, in path order.
   */
  method StepsOf(m: Map, ids: seq<LaneID>, endLane: LaneID) returns (steps: seq<PathStep>)
    requires LanesOf(m, ids) && |ids| >= 1 && ids[|ids| - 1] == endLane
    ensures steps == WindowSteps(m, ids) + [LaneStep(endLane)]
    ensures |steps| == 2 * |ids| - 1
    ensures forall i :: 0 <= i < |ids| ==> steps[2 * i] == LaneStep(ids[i])
  {
    steps := [];
    for i := 0 to |ids| - 1
      invariant steps == WindowSteps(m, ids[..i + 1])
    {
      steps := steps + [LaneStep(ids[i]), TurnStep(TurnBetween(m, ids[i], ids[i + 1]))];
      assert ids[..i + 2][..i + 1] == ids[..i + 1];
    }
    assert ids[..|ids|] == ids;
    steps := steps + [LaneStep(endLane)];
  }

  /**
   * The path `pathfind` assembles from the raw lanes `p` and weight: the lanes at the even
   * positions, each followed by the turn to the next lane, then the end lane, so `2k - 1`
   * steps for `k` lanes; the end position's distance; the weight read as centimeters.
   */
  ghost predicate AssembledPath(m: Map, p: seq<LaneID>, end: Position, weight: nat, path: Path)
  {
    LanesOf(m, p) &&
    path.steps == WindowSteps(m, p) + [LaneStep(end.lane)] &&
    |path.steps| == 2 * |p| - 1 &&
    (forall i :: 0 <= i < |p| ==> path.steps[2 * i] == LaneStep(p[i])) &&
    path.endDist == end.distAlong &&
    path.cost == Centimeters(weight)
  }

  /** What `pathfind` makes of the engine's answer `raw`: None exactly when the engine found nothing. */
  ghost predicate AssembledFrom(m: Map, req: PathRequest, raw: Option<ShortestPath>, r: Option<Path>)
  {
    (r.None? <==> raw.None?) &&
    (r.Some? ==> AssembledPath(m, raw.value.nodes, req.end, raw.value.weight, r.value))
  }

  /** The step loop and the `Path` built from it, for the raw lanes `ids` ending on the end lane. */
  method AssemblePath(m: Map, ids: seq<LaneID>, end: Position, weight: nat) returns (path: Path)
    requires LanesOf(m, ids) && |ids| >= 1 && ids[|ids| - 1] == end.lane
    ensures AssembledPath(m, ids, end, weight, path)
  {
    var steps := StepsOf(m, ids, end.lane);
    path := Path(steps, end.distAlong, Centimeters(weight));
  }

  /**
   * The rest of `pathfind` once the engine has answered `raw`: translate the raw nodes back
   * to lanes through the dense node map and assemble the steps.
   */
  method AssembleAnswer(nodes: NodeMap, m: Map, req: PathRequest, raw: Option<ShortestPath>) returns (r: Option<Path>)
    requires nodes.Dense(|m.lanes|)
    requires raw.Some? ==>
      |raw.value.nodes| >= 1 && raw.value.nodes[|raw.value.nodes| - 1] == req.end.lane &&
      (forall i :: 0 <= i < |raw.value.nodes| ==> raw.value.nodes[i] < |m.lanes|)
    ensures AssembledFrom(m, req, raw, r)
  {
    if raw.None? {
      return None;
    }
    nodes.DenseTranslate(|m.lanes|, raw.value.nodes);
    var ids := nodes.Translate(raw.value.nodes);
    var path := AssemblePath(m, ids, req.end, raw.value.weight);
    r := Some(path);
  }

  /** The node-map loop of `VehiclePathfinder::new`: every lane, in `all_lanes` order. */
  method InsertAllLanes(m: Map) returns (ns: NodeMap)
    requires WellFormed(m)
    ensures ns.Dense(|m.lanes|) && ns.nodeToId == LaneIds(m)
  {
    ns := EmptyNodeMap();
    for i := 0 to |m.lanes|
      invariant ns.Dense(i)
    {
      var (ns', _) := ns.GetOrInsert(m.lanes[i].id);
      ns := ns';
    }
    DenseNodeMapListsLanes(m);
    NodeMapDeterminedByOrder(ns, DenseNodeMap(|m.lanes|));
  }

  /**
   * Build the input graph and prepare it: with the given node ordering when there is one
   * (`prepare_with_order(..).unwrap()`), else with a freshly computed one (`prepare`).
   * The `unwrap` cannot fail as long as the library keeps every edge it is given, because
   * then the graph has one node per lane.
   */
  method BuildAndPrepare(m: Map, nodes: NodeMap, c: PathConstraints, ordering: Option<seq<nat>>)
    returns (fg: FastGraph)
    requires BuildInputs(m, c) && nodes.Dense(|m.lanes|)
    requires ordering.Some? ==> |ordering.value| == |m.lanes|
    ensures fg.input == InputGraphOf(m, c)
    ensures NumNodes(fg.input) == |fg.ordering| == |m.lanes|
    ensures ordering.Some? ==> fg.ordering == ordering.value
    ensures ordering.None? ==> fg == Prepare(InputGraphOf(m, c))
  {
    var input := MakeInputGraph(m, nodes, c);
    InputGraphCoversAllLanes(m, c);
    if ordering.Some? {
      fg := PrepareWithOrder(input, ordering.value).value;
    } else {
      fg := Prepare(input);
    }
  }

  /**
   * A vehicle pathfinder for one mode (`VehiclePathfinder`): the prepared hierarchy, the
   * node map of all lanes, and the mode. The per-thread path calculators are a cache and
   * are not modelled.
   */
  class VehiclePathfinder {
    var graph: FastGraph
    var nodes: NodeMap
    var constraints: PathConstraints

    /**
     * Node `i` is lane `i`, the mode is a vehicle, and the hierarchy has one node and one
     * rank per lane.
     */
    ghost predicate Valid()
      reads this
    {
      nodes.Dense(nodes.Size()) && constraints != Pedestrian &&
      NumNodes(graph.input) == nodes.Size() && |graph.ordering| == nodes.Size()
    }

    /**
     * `VehiclePathfinder::new(map, constraints, seed)`: insert every lane as a node, build
     * the input graph, and prepare it, with the seed's node ordering when there is a seed.
     * A seed built for another number of lanes makes `prepare_with_order` fail and the
     * source panic; the precondition excludes that.
     */
    constructor (m: Map, c: PathConstraints, seed: VehiclePathfinder?)
      requires BuildInputs(m, c)
      requires seed != null ==> |seed.graph.ordering| == |m.lanes|
      ensures Valid()
      ensures nodes.nodeToId == LaneIds(m) && constraints == c
      ensures graph.input == InputGraphOf(m, c)
      ensures seed != null ==> graph.ordering == old(seed.graph.ordering)
      ensures seed == null ==> graph == Prepare(InputGraphOf(m, c))
    {
      var ns := InsertAllLanes(m);
      var ordering := if seed != null then Some(seed.graph.ordering) else None;
      var fg := BuildAndPrepare(m, ns, c, ordering);
      graph := fg;
      nodes := ns;
      constraints := c;
    }

    /**
     * `pathfind(req, map)`: the cheapest walk from the start lane to the end lane, as
     * alternating Lane and Turn steps ending on the end lane, with its weight read as
     * centimeters; None when the end cannot be reached. A start on a sidewalk is a panic
     * in the source and excluded here.
     */
    method Pathfind(req: PathRequest, m: Map) returns (r: Option<Path>)
      requires Valid() && WellFormed(m) && |m.lanes| == nodes.Size()
      requires req.start.lane < |m.lanes| && req.end.lane < |m.lanes|
      requires !m.lanes[req.start.lane].IsSidewalk()
      ensures AssembledFrom(m, req, CalcPath(graph, req.start.lane, req.end.lane), r)
    {
      var start, end := nodes.Get(req.start.lane), nodes.Get(req.end.lane);
      assert start == req.start.lane && end == req.end.lane;
      var raw := CalcPath(graph, start, end);
      CalcPathNodes(graph, start, end);
      r := AssembleAnswer(nodes, m, req, raw);
    }

    /**
     * `apply_edits(map)`: rebuild the input graph from the edited map with the same nodes
     * and mode, and prepare it with the current node ordering. The edited map has the same
     * lanes, so the ordering fits and the `unwrap` cannot fail as long as the library keeps
     * every edge it is given.
     */
    method ApplyEdits(m: Map)
      requires Valid() && WellFormed(m) && |m.lanes| == nodes.Size()
      modifies this
      ensures Valid()
      ensures nodes == old(nodes) && constraints == old(constraints)
      ensures graph == FastGraph(InputGraphOf(m, constraints), old(graph.ordering))
    {
      graph := BuildAndPrepare(m, nodes, constraints, Some(graph.ordering));
    }
  }
}
