/**
 * `NodeMap<LaneID>`: an append-only bijection between lane ids and dense graph node
 * indices, handed out in insertion order. Its implementation is an outside collaborator;
 * this is the smallest value that behaves as the pathfinder uses it.
 */
module NodeMaps {
  import opened RoadNetwork

  datatype NodeMap = NodeMap(idToNode: map<LaneID, nat>, nodeToId: seq<LaneID>)
  {
    /** Both directions agree and the nodes are exactly `0 .. Size()-1`. */
    ghost predicate Valid()
    {
      (forall k :: k in idToNode ==> idToNode[k] < |nodeToId| && nodeToId[idToNode[k]] == k) &&
      (forall i :: 0 <= i < |nodeToId| ==> nodeToId[i] in idToNode && idToNode[nodeToId[i]] == i)
    }

    function Size(): nat { |nodeToId| }

    /** Lane `i` is node `i` for every `i < n`, and there are no other entries. */
    ghost predicate Dense(n: nat)
    {
      Valid() && |nodeToId| == n &&
      (forall k: LaneID :: k in idToNode <==> k < n) &&
      (forall k :: k in idToNode ==> idToNode[k] == k)
    }

    /** `nodes.get(id)`; the source indexes a hash map, which panics on a missing key. */
    function Get(k: LaneID): (n: nat)
      requires Valid() && k in idToNode
      ensures n < Size() && nodeToId[n] == k
    {
      idToNode[k]
    }

    /** `nodes.get_or_insert(id)`: the existing node, or the next fresh index. */
    function GetOrInsert(k: LaneID): (r: (NodeMap, nat))
      requires Valid()
      ensures r.0.Valid() && k in r.0.idToNode && r.0.idToNode[k] == r.1
      ensures k in idToNode ==> r.0 == this
      ensures k !in idToNode ==> r.0.nodeToId == nodeToId + [k] && r.1 == Size()
    {
      if k in idToNode then (this, idToNode[k])
      else (NodeMap(idToNode[k := |nodeToId|], nodeToId + [k]), |nodeToId|)
    }

    /** `nodes.translate(path)`: node indices back to lane ids. */
    function Translate(path: seq<nat>): (r: seq<LaneID>)
      requires forall i :: 0 <= i < |path| ==> path[i] < |nodeToId|
      ensures |r| == |path|
      ensures forall i :: 0 <= i < |path| ==> r[i] == nodeToId[path[i]]
    {
      seq(|path|, i requires 0 <= i < |path| => nodeToId[path[i]])
    }

    /** In a dense map, translating a path of nodes gives back the same numbers as lane ids. */
    lemma DenseTranslate(n: nat, path: seq<nat>)
      requires Dense(n) && forall i :: 0 <= i < |path| ==> path[i] < n
      ensures Translate(path) == path
    {
      forall i | 0 <= i < |path| ensures nodeToId[path[i]] == path[i] {
        assert idToNode[nodeToId[path[i]]] == path[i];
      }
    }
  }

  function EmptyNodeMap(): (nm: NodeMap)
    ensures nm.Valid() && nm.Size() == 0
  {
    NodeMap(map[], [])
  }

  /** The lane ids of the map, in `all_lanes` order. */
  function LaneIds(m: Map): (ids: seq<LaneID>)
    ensures |ids| == |m.lanes|
    ensures forall i :: 0 <= i < |m.lanes| ==> ids[i] == m.lanes[i].id
  {
    seq(|m.lanes|, i requires 0 <= i < |m.lanes| => m.lanes[i].id)
  }

  /** The node map of `n` lanes inserted in id order: node `i` stands for lane `i`. */
  function DenseNodeMap(n: nat): (nm: NodeMap)
    ensures nm.Dense(n)
  {
    NodeMap(IdentityMap(n), seq(n, i requires 0 <= i < n => i))
  }

  function IdentityMap(n: nat): (mp: map<LaneID, nat>)
    ensures forall k: LaneID :: k in mp <==> k < n
    ensures forall k :: k in mp ==> mp[k] == k
  {
    if n == 0 then map[] else IdentityMap(n - 1)[n - 1 := n - 1]
  }

  /** A node map is determined by its insertion order. */
  lemma NodeMapDeterminedByOrder(a: NodeMap, b: NodeMap)
    requires a.Valid() && b.Valid() && a.nodeToId == b.nodeToId
    ensures a == b
  {
    forall k | k in a.idToNode ensures k in b.idToNode && b.idToNode[k] == a.idToNode[k] {
      assert b.idToNode[a.nodeToId[a.idToNode[k]]] == a.idToNode[k];
    }
    forall k | k in b.idToNode ensures k in a.idToNode {
      assert a.idToNode[b.nodeToId[b.idToNode[k]]] == b.idToNode[k];
    }
  }

  /** In a well-formed map, the dense node map lists exactly the lanes, in `all_lanes` order. */
  lemma DenseNodeMapListsLanes(m: Map)
    requires WellFormed(m)
    ensures DenseNodeMap(|m.lanes|).nodeToId == LaneIds(m)
  {
  }
}
