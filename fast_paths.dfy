/**
 * The part of the `fast_paths` contraction-hierarchy library the vehicle pathfinder relies
 * on. The library is an outside collaborator: its graph is modelled as the list of edges
 * handed to `add_edge`, its prepared hierarchy as that list plus a node ordering, and its
 * query as a reference shortest-path search (label correcting, run to a fixpoint) whose
 * result contract is the one the hierarchy promises.
 */
module FastPaths {
  import opened Wrappers

  /** One `add_edge(from, to, weight)` call. */
  datatype Edge = Edge(from: nat, to: nat, weight: nat)

  /** An `InputGraph`: the edges in the order they were added. */
  type InputGraph = seq<Edge>

  /**
   * `InputGraph::get_num_nodes`: one more than the largest node any edge touches. A node
   * that no edge touches past the last touched one is not part of the graph.
   */
  function NumNodes(g: InputGraph): (n: nat)
    ensures forall e :: e in g ==> e.from < n && e.to < n
    ensures g == [] <==> n == 0
    ensures g != [] ==> exists e :: e in g && (e.from == n - 1 || e.to == n - 1)
  {
    if g == [] then 0
    else
      var rest := NumNodes(g[1..]);
      var here := if g[0].from < g[0].to then g[0].to + 1 else g[0].from + 1;
      if here < rest then rest else here
  }

  /** The edges leaving node `u`, in the order they were added. */
  function Outgoing(g: InputGraph, u: nat): (r: seq<Edge>)
    ensures forall e :: e in r <==> e in g && e.from == u
  {
    if g == [] then [] else (if g[0].from == u then [g[0]] else []) + Outgoing(g[1..], u)
  }

  lemma {:induction false} OutgoingAppend(a: InputGraph, b: InputGraph, u: nat)
    ensures Outgoing(a + b, u) == Outgoing(a, u) + Outgoing(b, u)
  {
    if a != [] {
      var head := if a[0].from == u then [a[0]] else [];
      assert (a + b)[0] == a[0] && (a + b)[1..] == a[1..] + b;
      OutgoingAppend(a[1..], b, u);
      calc {
        Outgoing(a + b, u);
        head + Outgoing(a[1..] + b, u);
        head + (Outgoing(a[1..], u) + Outgoing(b, u));
        (head + Outgoing(a[1..], u)) + Outgoing(b, u);
        Outgoing(a, u) + Outgoing(b, u);
      }
    } else {
      assert a + b == b;
    }
  }

  /** Edge lists laid end to end, in order. */
  function Concat(bs: seq<seq<Edge>>): seq<Edge>
  {
    if bs == [] then [] else Concat(bs[..|bs| - 1]) + bs[|bs| - 1]
  }

  lemma ConcatSnoc(bs: seq<seq<Edge>>, i: nat)
    requires i < |bs|
    ensures Concat(bs[..i + 1]) == Concat(bs[..i]) + bs[i]
  {
    assert bs[..i + 1][..i] == bs[..i];
  }

  /** Every edge of block `l` leaves node `l`. */
  predicate BlocksLeaveOwnNode(bs: seq<seq<Edge>>)
  {
    forall l, e :: 0 <= l < |bs| && e in bs[l] ==> e.from == l
  }

  /** When block `l` holds the edges out of node `l`, the edges out of `u` in the whole graph are block `u`, in order. */
  lemma {:induction false} OutgoingOfConcat(bs: seq<seq<Edge>>, u: nat)
    requires BlocksLeaveOwnNode(bs)
    ensures Outgoing(Concat(bs), u) == if u < |bs| then bs[u] else []
  {
    if bs != [] {
      var init := bs[..|bs| - 1];
      var last := bs[|bs| - 1];
      assert BlocksLeaveOwnNode(init) by {
        forall l: nat, e: Edge | l < |init| && e in init[l] ensures e.from == l {
          assert init[l] == bs[l];
        }
      }
      OutgoingOfConcat(init, u);
      OutgoingAppend(Concat(init), last, u);
      if u == |bs| - 1 {
        OutgoingOnly(last, u);
        assert [] + last == last;
      } else {
        OutgoingNone(last, u);
        assert Outgoing(Concat(init), u) + [] == Outgoing(Concat(init), u);
        if u < |init| {
          assert init[u] == bs[u];
        }
      }
    }
  }

  lemma {:induction false} OutgoingOnly(es: seq<Edge>, u: nat)
    requires forall e :: e in es ==> e.from == u
    ensures Outgoing(es, u) == es
  {
    if es != [] {
      OutgoingOnly(es[1..], u);
    }
  }

  lemma {:induction false} OutgoingNone(es: seq<Edge>, u: nat)
    requires forall e :: e in es ==> e.from != u
    ensures Outgoing(es, u) == []
  {
    if es != [] {
      OutgoingNone(es[1..], u);
    }
  }

  /** A prepared hierarchy (`FastGraph`): the frozen input graph and its node ordering. */
  datatype FastGraph = FastGraph(input: InputGraph, ordering: seq<nat>)

  /** A stand-in for the ordering heuristic of a fresh build: node `i` has rank `i`. */
  function FreshOrdering(n: nat): (o: seq<nat>)
    ensures |o| == n && forall i :: 0 <= i < n ==> o[i] == i
  {
    seq(n, i requires 0 <= i < n => i)
  }

  /** `fast_paths::prepare`: builds the hierarchy with an ordering of its own. */
  function Prepare(g: InputGraph): (fg: FastGraph)
    ensures fg.input == g && |fg.ordering| == NumNodes(g)
  {
    FastGraph(g, FreshOrdering(NumNodes(g)))
  }

  /**
   * `fast_paths::prepare_with_order`: reuses `order` verbatim, and fails unless it ranks
   * exactly as many nodes as the graph has.
   */
  function PrepareWithOrder(g: InputGraph, order: seq<nat>): (r: Option<FastGraph>)
    ensures r.Some? <==> |order| == NumNodes(g)
    ensures r.Some? ==> r.value.input == g && r.value.ordering == order
  {
    if |order| == NumNodes(g) then Some(FastGraph(g, order)) else None
  }

  /**
   * The weight the frozen graph keeps for the pair `u -> v`: the least weight among the
   * parallel edges from `u` to `v`, or None when there is no such edge.
   */
  function MinWeight(g: InputGraph, u: nat, v: nat): (r: Option<nat>)
    ensures r.None? <==> forall e :: e in g ==> !(e.from == u && e.to == v)
    ensures r.Some? ==> Edge(u, v, r.value) in g
    ensures r.Some? ==> forall e :: e in g && e.from == u && e.to == v ==> r.value <= e.weight
  {
    if g == [] then None
    else
      var rest := MinWeight(g[1..], u, v);
      if g[0].from == u && g[0].to == v && (rest.None? || g[0].weight <= rest.value)
      then Some(g[0].weight)
      else rest
  }

  predicate Linked(g: InputGraph, u: nat, v: nat)
  {
    MinWeight(g, u, v).Some?
  }

  /** A non-empty node sequence whose consecutive pairs are edges of `g`. */
  predicate IsWalk(g: InputGraph, p: seq<nat>)
  {
    |p| >= 1 && forall i :: 0 <= i < |p| - 1 ==> Linked(g, p[i], p[i + 1])
  }

  predicate IsWalkBetween(g: InputGraph, p: seq<nat>, s: nat, t: nat)
  {
    IsWalk(g, p) && p[0] == s && p[|p| - 1] == t
  }

  /** The total weight of a walk in the frozen graph. */
  function PathWeight(g: InputGraph, p: seq<nat>): nat
    requires IsWalk(g, p)
    decreases |p|
  {
    if |p| == 1 then 0
    else
      assert IsWalk(g, p[..|p| - 1]);
      PathWeight(g, p[..|p| - 1]) + MinWeight(g, p[|p| - 2], p[|p| - 1]).value
  }

  lemma {:induction false} WalkExtend(g: InputGraph, p: seq<nat>, v: nat)
    requires IsWalk(g, p) && Linked(g, p[|p| - 1], v)
    ensures IsWalk(g, p + [v])
    ensures PathWeight(g, p + [v]) == PathWeight(g, p) + MinWeight(g, p[|p| - 1], v).value
  {
    WalkSnoc(g, p, v);
    PathWeightSnoc(g, p, v);
  }

  lemma {:induction false} PathWeightSnoc(g: InputGraph, p: seq<nat>, v: nat)
    requires IsWalk(g, p) && IsWalk(g, p + [v]) && Linked(g, p[|p| - 1], v)
    ensures PathWeight(g, p + [v]) == PathWeight(g, p) + MinWeight(g, p[|p| - 1], v).value
  {
    var q := p + [v];
    assert |q| >= 2 && q[..|q| - 1] == p;
    assert q[|q| - 2] == p[|p| - 1] && q[|q| - 1] == v;
    PathWeightLast(g, q);
  }

  /** The weight of a walk of two or more nodes: its prefix's weight plus its last edge's. */
  lemma {:induction false} PathWeightLast(g: InputGraph, q: seq<nat>)
    requires IsWalk(g, q) && |q| >= 2
    ensures PathWeight(g, q) == PathWeight(g, q[..|q| - 1]) + MinWeight(g, q[|q| - 2], q[|q| - 1]).value
  {
  }

  lemma WalkSnoc(g: InputGraph, p: seq<nat>, v: nat)
    requires IsWalk(g, p) && Linked(g, p[|p| - 1], v)
    ensures IsWalk(g, p + [v])
  {
    var q := p + [v];
    forall i | 0 <= i < |q| - 1 ensures Linked(g, q[i], q[i + 1]) {
      if i < |p| - 1 {
        assert q[i] == p[i] && q[i + 1] == p[i + 1];
      }
    }
  }


  /** Every node of a walk is a node of the graph. */
  lemma {:induction false} WalkWithinNodes(g: InputGraph, p: seq<nat>)
    requires IsWalk(g, p) && p[0] < NumNodes(g)
    ensures forall i :: 0 <= i < |p| ==> p[i] < NumNodes(g)
  {
    forall i | 0 < i < |p| ensures p[i] < NumNodes(g) {
      assert Linked(g, p[i - 1], p[i]);
      assert Edge(p[i - 1], p[i], MinWeight(g, p[i - 1], p[i]).value) in g;
    }
  }

  // ---------------------------------------------------------------------------------
  // The reference search: a table of best known labels per node, relaxed edge by edge
  // until nothing changes.

  /** A walk from the source and the weight it was found with. */
  datatype Label = Label(weight: nat, nodes: seq<nat>)

  type Table = seq<Option<Label>>

  function InitTable(n: nat, s: nat): (t: Table)
    requires s < n
    ensures |t| == n && t[s] == Some(Label(0, [s]))
    ensures forall v :: 0 <= v < n && v != s ==> t[v].None?
  {
    seq(n, v requires 0 <= v < n => if v == s then Some(Label(0, [s])) else None)
  }

  /** Every entry of `r` is the one of `t` or a strictly better one. */
  ghost predicate Improves(r: Table, t: Table)
  {
    |r| == |t| &&
    forall v :: 0 <= v < |t| ==>
      r[v] == t[v] || (r[v].Some? && (t[v].None? || r[v].value.weight < t[v].value.weight))
  }

  lemma ImprovesTransitive(a: Table, b: Table, c: Table)
    requires Improves(a, b) && Improves(b, c)
    ensures Improves(a, c)
  {
  }

  predicate EdgesWithin(es: seq<Edge>, n: nat)
  {
    forall e :: e in es ==> e.from < n && e.to < n
  }

  /** Relaxes one edge: the walk to `e.from` extended by `e.to`, if that is strictly better. */
  function Relax(t: Table, e: Edge): (r: Table)
    requires e.from < |t| && e.to < |t|
    ensures Improves(r, t)
    ensures t[e.from].Some? ==>
      r[e.to].Some? && r[e.to].value.weight <= t[e.from].value.weight + e.weight
  {
    match t[e.from]
    case None => t
    case Some(lu) =>
      var w := lu.weight + e.weight;
      if t[e.to].None? || w < t[e.to].value.weight
      then t[e.to := Some(Label(w, lu.nodes + [e.to]))]
      else t
  }

  /** One round: every edge relaxed once, in order. */
  function RelaxAll(t: Table, es: seq<Edge>): (r: Table)
    requires EdgesWithin(es, |t|)
    ensures Improves(r, t)
    decreases |es|
  {
    if es == [] then t
    else
      var t1 := Relax(t, es[0]);
      var r := RelaxAll(t1, es[1..]);
      ImprovesTransitive(r, t1, t);
      r
  }

  function NoneCount(t: Table): nat
  {
    if t == [] then 0 else (if t[0].None? then 1 else 0) + NoneCount(t[1..])
  }

  function WeightSum(t: Table): nat
  {
    if t == [] then 0 else (if t[0].Some? then t[0].value.weight else 0) + WeightSum(t[1..])
  }

  /** Improving a table never adds unreached nodes, and a change lowers the measure. */
  lemma {:induction false} ImprovesMeasure(r: Table, t: Table)
    requires Improves(r, t)
    ensures NoneCount(r) <= NoneCount(t)
    ensures NoneCount(r) == NoneCount(t) ==>
      WeightSum(r) <= WeightSum(t) && (r != t ==> WeightSum(r) < WeightSum(t))
  {
    if t != [] {
      assert Improves(r[1..], t[1..]) by {
        forall v | 0 <= v < |t| - 1
          ensures r[1..][v] == t[1..][v] ||
            (r[1..][v].Some? && (t[1..][v].None? || r[1..][v].value.weight < t[1..][v].value.weight))
        {
          assert r[1..][v] == r[v + 1] && t[1..][v] == t[v + 1];
        }
      }
      ImprovesMeasure(r[1..], t[1..]);
      if r != t && r[0] == t[0] {
        assert r == [r[0]] + r[1..] && t == [t[0]] + t[1..];
        assert r[1..] != t[1..];
      }
    }
  }

  /** Rounds of relaxation until a round changes nothing. */
  function Settle(g: InputGraph, t: Table): (r: Table)
    requires EdgesWithin(g, |t|)
    ensures Improves(r, t) && RelaxAll(r, g) == r
    decreases NoneCount(t), WeightSum(t)
  {
    var t1 := RelaxAll(t, g);
    if t1 == t then t
    else
      ImprovesMeasure(t1, t);
      var r := Settle(g, t1);
      ImprovesTransitive(r, t1, t);
      r
  }

  // Soundness: every label is a walk from the source whose weight is at most the label's.

  ghost predicate LabelOk(g: InputGraph, s: nat, v: nat, lab: Label)
  {
    IsWalkBetween(g, lab.nodes, s, v) && PathWeight(g, lab.nodes) <= lab.weight
  }

  ghost predicate Sound(g: InputGraph, s: nat, t: Table)
  {
    forall v :: 0 <= v < |t| && t[v].Some? ==> LabelOk(g, s, v, t[v].value)
  }

  lemma RelaxSound(g: InputGraph, s: nat, t: Table, e: Edge)
    requires e in g && e.from < |t| && e.to < |t| && Sound(g, s, t)
    ensures Sound(g, s, Relax(t, e))
  {
    if t[e.from].Some? {
      var lu := t[e.from].value;
      var w := lu.weight + e.weight;
      if t[e.to].None? || w < t[e.to].value.weight {
        assert LabelOk(g, s, e.from, lu);
        WalkExtend(g, lu.nodes, e.to);
        assert LabelOk(g, s, e.to, Label(w, lu.nodes + [e.to]));
      }
    }
  }

  lemma {:induction false} RelaxAllSound(g: InputGraph, s: nat, t: Table, es: seq<Edge>)
    requires EdgesWithin(es, |t|) && (forall e :: e in es ==> e in g) && Sound(g, s, t)
    ensures Sound(g, s, RelaxAll(t, es))
    decreases |es|
  {
    if es != [] {
      RelaxSound(g, s, t, es[0]);
      RelaxAllSound(g, s, Relax(t, es[0]), es[1..]);
    }
  }

  lemma {:induction false} SettleSound(g: InputGraph, s: nat, t: Table)
    requires EdgesWithin(g, |t|) && Sound(g, s, t)
    ensures Sound(g, s, Settle(g, t))
    decreases NoneCount(t), WeightSum(t)
  {
    var t1 := RelaxAll(t, g);
    RelaxAllSound(g, s, t, g);
    if t1 != t {
      ImprovesMeasure(t1, t);
      SettleSound(g, s, t1);
    }
  }

  // Optimality: at a fixpoint no edge can improve any label.

  ghost predicate Closed(g: InputGraph, t: Table)
    requires EdgesWithin(g, |t|)
  {
    forall e :: e in g && t[e.from].Some? ==>
      t[e.to].Some? && t[e.to].value.weight <= t[e.from].value.weight + e.weight
  }

  lemma {:induction false} RelaxAllReaches(c: Table, es: seq<Edge>, t: Table, e: Edge)
    requires EdgesWithin(es, |c|) && Improves(c, t) && e in es && t[e.from].Some?
    ensures RelaxAll(c, es)[e.to].Some?
    ensures RelaxAll(c, es)[e.to].value.weight <= t[e.from].value.weight + e.weight
    decreases |es|
  {
    var c1 := Relax(c, es[0]);
    if es[0] == e {
      assert c1[e.to].Some? && c1[e.to].value.weight <= t[e.from].value.weight + e.weight;
    } else {
      ImprovesTransitive(c1, c, t);
      RelaxAllReaches(c1, es[1..], t, e);
    }
  }

  lemma {:induction false} FixpointClosed(g: InputGraph, t: Table)
    requires EdgesWithin(g, |t|) && RelaxAll(t, g) == t
    ensures Closed(g, t)
  {
    forall e | e in g && t[e.from].Some?
      ensures t[e.to].Some? && t[e.to].value.weight <= t[e.from].value.weight + e.weight
    {
      RelaxAllReaches(t, g, t, e);
    }
  }

  /** At a fixpoint, every walk from the source ends at a labelled node and weighs no less. */
  lemma {:induction false} ClosedBoundsWalks(g: InputGraph, t: Table, s: nat, p: seq<nat>)
    requires EdgesWithin(g, |t|) && s < |t| && Closed(g, t) && t[s] == Some(Label(0, [s]))
    requires IsWalk(g, p) && p[0] == s
    ensures p[|p| - 1] < |t| && t[p[|p| - 1]].Some?
    ensures t[p[|p| - 1]].value.weight <= PathWeight(g, p)
    decreases |p|
  {
    if |p| > 1 {
      var q := p[..|p| - 1];
      assert IsWalk(g, q);
      ClosedBoundsWalks(g, t, s, q);
      var u, v := p[|p| - 2], p[|p| - 1];
      assert Linked(g, u, v);
      var w := MinWeight(g, u, v).value;
      assert Edge(u, v, w) in g;
    }
  }

  /** The settled table of a search from `s`. */
  function Search(g: InputGraph, s: nat): (t: Table)
    requires s < NumNodes(g)
    ensures |t| == NumNodes(g) && EdgesWithin(g, |t|)
    ensures Sound(g, s, t) && Closed(g, t) && t[s] == Some(Label(0, [s]))
  {
    var t0 := InitTable(NumNodes(g), s);
    assert Sound(g, s, t0) by {
      forall v | 0 <= v < |t0| && t0[v].Some? ensures LabelOk(g, s, v, t0[v].value) {
        assert v == s;
      }
    }
    var t := Settle(g, t0);
    SettleSound(g, s, t0);
    FixpointClosed(g, t);
    t
  }

  lemma {:induction false} SearchOptimal(g: InputGraph, s: nat)
    requires s < NumNodes(g)
    ensures forall p :: IsWalk(g, p) && p[0] == s ==>
      p[|p| - 1] < |Search(g, s)| && Search(g, s)[p[|p| - 1]].Some? &&
      Search(g, s)[p[|p| - 1]].value.weight <= PathWeight(g, p)
  {
    var t := Search(g, s);
    forall p | IsWalk(g, p) && p[0] == s
      ensures p[|p| - 1] < |t| && t[p[|p| - 1]].Some? && t[p[|p| - 1]].value.weight <= PathWeight(g, p)
    {
      ClosedBoundsWalks(g, t, s, p);
    }
  }

  /** `fast_paths::ShortestPath`: the weight and the node sequence of a path. */
  datatype ShortestPath = ShortestPath(source: nat, target: nat, weight: nat, nodes: seq<nat>)

  /**
   * `PathCalculator::calc_path`: a least-weight walk from `s` to `t`, or None exactly when
   * `t` cannot be reached from `s`.
   */
  function CalcPath(fg: FastGraph, s: nat, t: nat): (r: Option<ShortestPath>)
    requires s < NumNodes(fg.input) && t < NumNodes(fg.input)
    ensures r.Some? ==> r.value.source == s && r.value.target == t
    ensures r.Some? ==> IsWalkBetween(fg.input, r.value.nodes, s, t)
    ensures r.Some? ==> r.value.weight == PathWeight(fg.input, r.value.nodes)
    ensures r.Some? ==> forall p :: IsWalkBetween(fg.input, p, s, t) ==> r.value.weight <= PathWeight(fg.input, p)
    ensures r.None? <==> forall p :: !IsWalkBetween(fg.input, p, s, t)
    ensures s == t ==> r == Some(ShortestPath(s, s, 0, [s]))
  {
    var table := Search(fg.input, s);
    SearchOptimal(fg.input, s);
    match table[t]
    case None => None
    case Some(lab) =>
      assert LabelOk(fg.input, s, t, lab);
      Some(ShortestPath(s, t, lab.weight, lab.nodes))
  }

  /** A found path starts at the source, ends at the target and stays among the graph's nodes. */
  lemma CalcPathNodes(fg: FastGraph, s: nat, t: nat)
    requires s < NumNodes(fg.input) && t < NumNodes(fg.input)
    ensures var r := CalcPath(fg, s, t);
      r.Some? ==>
        |r.value.nodes| >= 1 && r.value.nodes[|r.value.nodes| - 1] == t &&
        (forall i :: 0 <= i < |r.value.nodes| ==> r.value.nodes[i] < NumNodes(fg.input))
  {
    var r := CalcPath(fg, s, t);
    if r.Some? {
      WalkWithinNodes(fg.input, r.value.nodes);
    }
  }

  /** When every edge into `t` comes from `w`, a found path from `s` to `t` reaches `t` from `w`. */
  lemma CalcPathThrough(fg: FastGraph, s: nat, w: nat, t: nat)
    requires s < NumNodes(fg.input) && t < NumNodes(fg.input) && s != t
    requires Linked(fg.input, s, w) && Linked(fg.input, w, t)
    requires forall x :: Linked(fg.input, x, t) ==> x == w
    ensures var r := CalcPath(fg, s, t);
      r.Some? && |r.value.nodes| >= 2 && r.value.nodes[|r.value.nodes| - 2] == w
  {
    assert IsWalkBetween(fg.input, [s, w, t], s, t);
    var p := CalcPath(fg, s, t).value.nodes;
    assert Linked(fg.input, p[|p| - 2], p[|p| - 1]);
  }

  /**
   * Two hierarchies prepared from the same graph, whatever their orderings, agree on whether
   * `t` is reachable from `s` and on the least weight; among equal-weight routes they may
   * return different ones.
   */
  lemma QueryIgnoresOrdering(fg1: FastGraph, fg2: FastGraph, s: nat, t: nat)
    requires fg1.input == fg2.input
    requires s < NumNodes(fg1.input) && t < NumNodes(fg1.input)
    ensures CalcPath(fg1, s, t).None? <==> CalcPath(fg2, s, t).None?
    ensures CalcPath(fg1, s, t).Some? ==> CalcPath(fg1, s, t).value.weight == CalcPath(fg2, s, t).value.weight
  {
    var r1, r2 := CalcPath(fg1, s, t), CalcPath(fg2, s, t);
    if r1.Some? && r2.Some? {
      assert IsWalkBetween(fg1.input, r2.value.nodes, s, t);
      assert IsWalkBetween(fg2.input, r1.value.nodes, s, t);
    }
  }
}
