/**
 * The part of `smoothTree` that decides which skin vertices stay loose:
 * the `edgeCount` dictionary, which finds the vertices lying on exactly
 * one edge together with their neighbour, and the `use_loose` flags set
 * from it. The skin modifier's flag layer is a plain array of booleans.
 */
module Smoothing {
  import opened Results
  import opened Turtle

  /** How many edge endpoints are `v`; an edge from `v` to itself counts twice. */
  function Degree(edges: seq<Edge>, v: nat): nat
  {
    if |edges| == 0 then 0
    else
      var e := edges[|edges| - 1];
      Degree(edges[..|edges| - 1], v) + (if e.from == v then 1 else 0) + (if e.to == v then 1 else 0)
  }

  /** The other endpoint of the last edge at `v`, if there is one. */
  function Neighbour(edges: seq<Edge>, v: nat): Option<nat>
  {
    if |edges| == 0 then None
    else
      var e := edges[|edges| - 1];
      if e.from == v then Some(e.to)
      else if e.to == v then Some(e.from)
      else Neighbour(edges[..|edges| - 1], v)
  }

  /** A vertex on some edge is below n, and so is its neighbour. */
  lemma {:induction false} OnEdgeBelow(edges: seq<Edge>, n: nat, v: nat)
    requires EndpointsBelow(edges, n) && Degree(edges, v) > 0
    ensures v < n && Neighbour(edges, v).Some? && Neighbour(edges, v).value < n
  {
    var e := edges[|edges| - 1];
    if e.from != v && e.to != v {
      OnEdgeBelow(edges[..|edges| - 1], n, v);
    }
  }

  /** A vertex of degree one sits on an edge to its neighbour. */
  lemma {:induction false} NeighbourIsAdjacent(edges: seq<Edge>, v: nat)
    requires Neighbour(edges, v).Some?
    ensures exists k :: 0 <= k < |edges| &&
              (edges[k] == Edge(v, Neighbour(edges, v).value) || edges[k] == Edge(Neighbour(edges, v).value, v))
  {
    var n := |edges|;
    var e := edges[n - 1];
    if e.from != v && e.to != v {
      NeighbourIsAdjacent(edges[..n - 1], v);
      var k :| 0 <= k < n - 1 && (edges[..n - 1][k] == Edge(v, Neighbour(edges, v).value) ||
                                  edges[..n - 1][k] == Edge(Neighbour(edges, v).value, v));
      assert edges[k] == edges[..n - 1][k];
    } else {
      assert edges[n - 1] == e;
    }
  }

  /** What `edgeCount` holds once the edges `es` are counted. */
  ghost predicate Counted(es: seq<Edge>, count: map<nat, Option<nat>>)
  {
    (forall v :: v in count <==> Degree(es, v) > 0) &&
    (forall v :: v in count ==> count[v] == if Degree(es, v) == 1 then Neighbour(es, v) else None)
  }

  /**
   * The `edgeCount` loop: a vertex is a key exactly when it lies on some edge; its entry is
   * its neighbour when it lies on exactly one edge and None when on two or more.
   */
  method EdgeCount(edges: seq<Edge>) returns (count: map<nat, Option<nat>>)
    ensures forall v :: v in count <==> Degree(edges, v) > 0
    ensures forall v :: v in count ==> count[v] == if Degree(edges, v) == 1 then Neighbour(edges, v) else None
  {
    count := map[];
    var i := 0;
    while i < |edges|
      invariant 0 <= i <= |edges|
      invariant Counted(edges[..i], count)
    {
      var e := edges[i];
      assert edges[..i + 1][..i] == edges[..i];
      assert edges[..i + 1][i] == e;
      ghost var before := count;
      if e.from !in count {
        count := count[e.from := Some(e.to)];
      } else {
        count := count[e.from := None];
      }
      ghost var middle := count;
      if e.to !in count {
        count := count[e.to := Some(e.from)];
      } else {
        count := count[e.to := None];
      }
      i := i + 1;
    }
    assert edges[..i] == edges;
  }

  /** `use_loose` is cleared at a vertex of degree one and at the neighbour of one. */
  ghost predicate Cleared(edges: seq<Edge>, v: nat)
  {
    Degree(edges, v) == 1 || exists u :: Degree(edges, u) == 1 && Neighbour(edges, u) == Some(v)
  }

  /** The vertices that the entries in `done` clear. */
  ghost predicate ClearedBy(count: map<nat, Option<nat>>, done: set<nat>, v: nat)
  {
    exists u :: u in done && u in count && count[u].Some? && (u == v || count[u].value == v)
  }

  /**
   * The `use_loose` writes of `smoothTree` when the loose flag is on: every vertex is made
   * loose, then the degree-one vertices and their neighbours are cleared.
   */
  method MarkLoose(edges: seq<Edge>, loose: array<bool>)
    requires EndpointsBelow(edges, loose.Length)
    modifies loose
    ensures forall v :: 0 <= v < loose.Length ==> (loose[v] <==> !Cleared(edges, v))
  {
    var i := 0;
    while i < loose.Length
      invariant 0 <= i <= loose.Length
      invariant forall j :: 0 <= j < i ==> loose[j]
    {
      loose[i] := true;
      i := i + 1;
    }
    var count := EdgeCount(edges);
    var todo := count.Keys;
    while todo != {}
      invariant todo <= count.Keys
      invariant forall v :: 0 <= v < loose.Length ==> (loose[v] <==> !ClearedBy(count, count.Keys - todo, v))
      decreases todo
    {
      var v :| v in todo;
      var entry := count[v];
      if entry.Some? {
        OnEdgeBelow(edges, loose.Length, v);
        loose[v] := false;
        loose[entry.value] := false;
      }
      todo := todo - {v};
    }
    forall v | 0 <= v < loose.Length
      ensures ClearedBy(count, count.Keys, v) <==> Cleared(edges, v)
    {
      if Cleared(edges, v) {
        if Degree(edges, v) == 1 {
          OnEdgeBelow(edges, loose.Length, v);
          assert v in count && count[v].Some?;
        } else {
          var u :| Degree(edges, u) == 1 && Neighbour(edges, u) == Some(v);
          assert u in count && count[u] == Some(v);
        }
      }
    }
  }
}
