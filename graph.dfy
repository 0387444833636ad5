/** Graph builders and validators (util/graph.ts).

    `EdgeList` keeps (and sorts in place) the very array its caller passes, so
    it is a class over that array. `AdjacencyList` and `AdjacencyMatrix` only
    compute their edge count `m` while they are constructed and may throw
    instead of producing an object, so they are values built by methods that
    return a `Result`. */
module Graph {
  import opened Wrappers
  import Sorting

  /** `[source, target]`: node indices, which the source never range-checks. */
  type Edge = (int, int)

  function SourceKey(e: Edge): int {
    e.0
  }

  /** The edges with both orientations, in the order `bidirectional` pushes them. */
  function BothWays(es: seq<Edge>): (r: seq<Edge>)
    ensures |r| == 2 * |es|
    ensures forall e :: e in es ==> e in r && (e.1, e.0) in r
    ensures forall d :: d in r ==> d in es || (d.1, d.0) in es
  {
    if es == [] then []
    else
      var init := es[..|es| - 1];
      var e := es[|es| - 1];
      var r := BothWays(init) + [e, (e.1, e.0)];
      assert forall d :: d in es ==> d in init || d == e;
      r
  }

  /** Each edge appears in `BothWays` once as it is and once turned around,
      as often as it appears in the input. */
  lemma {:induction false} BothWaysMultiset(es: seq<Edge>)
    ensures multiset(BothWays(es)) == multiset(es) + multiset(Flipped(es))
  {
    if es != [] {
      var init := es[..|es| - 1];
      var e := es[|es| - 1];
      var f := (e.1, e.0);
      calc {
        multiset(BothWays(es));
        == { assert BothWays(es) == BothWays(init) + [e, f]; }
        multiset(BothWays(init)) + multiset([e, f]);
        == { BothWaysMultiset(init); }
        multiset(init) + multiset(Flipped(init)) + multiset([e, f]);
        == { assert es == init + [e]; assert Flipped(es) == Flipped(init) + [f]; }
        multiset(es) + multiset(Flipped(es));
      }
    }
  }

  /** Every edge turned around, in the same order. */
  function Flipped(es: seq<Edge>): seq<Edge> {
    seq(|es|, i requires 0 <= i < |es| => (es[i].1, es[i].0))
  }

  /** The targets of the edges leaving `u`, one per edge, in edge order. */
  function Targets(es: seq<Edge>, u: int): seq<int> {
    if es == [] then []
    else
      var e := es[|es| - 1];
      Targets(es[..|es| - 1], u) + (if e.0 == u then [e.1] else [])
  }

  lemma {:induction false} TargetsAreEdges(es: seq<Edge>, u: int, v: int)
    ensures v in Targets(es, u) <==> (u, v) in es
  {
    if es != [] {
      var init := es[..|es| - 1];
      TargetsAreEdges(init, u, v);
      assert es == init + [es[|es| - 1]];
    }
  }

  /** The sum of the list lengths. */
  function TotalLength(adj: seq<seq<int>>): nat {
    if adj == [] then 0 else TotalLength(adj[..|adj| - 1]) + |adj[|adj| - 1]|
  }

  /** Pushing one target onto one list adds exactly one to the total. */
  lemma {:induction false} TotalLengthAfterPush(adj: seq<seq<int>>, u: nat, v: int)
    requires u < |adj|
    ensures TotalLength(adj[u := adj[u] + [v]]) == TotalLength(adj) + 1
    decreases |adj|
  {
    var adj' := adj[u := adj[u] + [v]];
    var last := |adj| - 1;
    assert adj'[..last] == if u < last then adj[..last][u := adj[u] + [v]] else adj[..last];
    if u < last {
      TotalLengthAfterPush(adj[..last], u, v);
    }
  }

  /** The first loop of `to_adjacency_list`: one empty list per node. */
  method EmptyLists(n: int) returns (adj: seq<seq<int>>)
    ensures |adj| == if n < 0 then 0 else n
    ensures forall u :: 0 <= u < |adj| ==> adj[u] == []
    ensures TotalLength(adj) == 0
  {
    adj := [];
    while |adj| < n
      invariant |adj| <= if n < 0 then 0 else n
      invariant forall u :: 0 <= u < |adj| ==> adj[u] == []
      invariant TotalLength(adj) == 0
    {
      assert (adj + [[]])[..|adj|] == adj;
      adj := adj + [[]];
    }
  }

  /** One list per node `0 .. size - 1`, each holding the targets of its edges. */
  function AllTargets(es: seq<Edge>, size: nat): seq<seq<int>> {
    seq(size, u requires 0 <= u < size => Targets(es, u))
  }

  /** Pushing the target of edge `k` onto its source's list turns the lists
      of the edges before it into the lists of the edges up to it, one longer
      in total. */
  lemma PushStep(es: seq<Edge>, k: nat, adj: seq<seq<int>>)
    requires k < |es| && 0 <= es[k].0 < |adj|
    requires adj == AllTargets(es[..k], |adj|) && TotalLength(adj) == k
    ensures var adj' := adj[es[k].0 := adj[es[k].0] + [es[k].1]];
            adj' == AllTargets(es[..k + 1], |adj|) && TotalLength(adj') == k + 1
  {
    TotalLengthAfterPush(adj, es[k].0, es[k].1);
    assert es[..k + 1][..k] == es[..k];
    var adj' := adj[es[k].0 := adj[es[k].0] + [es[k].1]];
    forall w | 0 <= w < |adj|
      ensures adj'[w] == Targets(es[..k + 1], w)
    {
    }
  }

  /** The second loop of `to_adjacency_list`: the target of every edge pushed
      onto the list of its source, in edge order; a source without a list
      makes `adj[u].push` throw. */
  method PushTargets(es: seq<Edge>, adj0: seq<seq<int>>) returns (r: Result<seq<seq<int>>>)
    requires forall u :: 0 <= u < |adj0| ==> adj0[u] == []
    requires TotalLength(adj0) == 0
    ensures r.Ok? <==> forall k :: 0 <= k < |es| ==> 0 <= es[k].0 < |adj0|
    ensures r.Err? ==> r.error == "TypeError: Cannot read properties of undefined (reading 'push')"
    ensures r.Ok? ==> r.value == AllTargets(es, |adj0|) && TotalLength(r.value) == |es|
  {
    var adj := adj0;
    assert adj == AllTargets(es[..0], |adj0|);
    for k := 0 to |es|
      invariant forall j :: 0 <= j < k ==> 0 <= es[j].0 < |adj0|
      invariant adj == AllTargets(es[..k], |adj0|) && TotalLength(adj) == k
    {
      var u := es[k].0;
      if !(0 <= u < |adj0|) {
        return Err("TypeError: Cannot read properties of undefined (reading 'push')");
      }
      PushStep(es, k, adj);
      adj := adj[u := adj[u] + [es[k].1]];
    }
    assert es[..|es|] == es;
    r := Ok(adj);
  }

  class EdgeList {
    const n: int
    const m: int
    const edges: array<Edge>

    /** `m` is the number of edges (the array's length never changes). */
    ghost predicate Valid() {
      m == edges.Length
    }

    /** Stores `edges` itself (not a copy) and sorts it in place by source. */
    constructor (n: int, edges: array<Edge>)
      modifies edges
      ensures Valid() && this.n == n && this.m == edges.Length && this.edges == edges
      ensures Sorting.SortedBy(edges[..], SourceKey)
      ensures multiset(edges[..]) == old(multiset(edges[..]))
    {
      this.n := n;
      this.m := edges.Length;
      this.edges := edges;
      new;
      Sorting.SortBy(edges, SourceKey);
    }

    /** A new edge list over the same nodes holding both orientations of every edge. */
    method Bidirectional() returns (r: EdgeList)
      requires Valid()
      ensures r.Valid()
      ensures fresh(r) && fresh(r.edges)
      ensures r.n == n && r.m == 2 * m
      ensures multiset(r.edges[..]) == multiset(BothWays(edges[..]))
      ensures Sorting.SortedBy(r.edges[..], SourceKey)
    {
      var out: seq<Edge> := [];
      for k := 0 to edges.Length
        invariant out == BothWays(edges[..k])
      {
        assert edges[..k + 1][..k] == edges[..k];
        var (u, v) := edges[k];
        out := out + [(u, v), (v, u)];
      }
      assert edges[..edges.Length] == edges[..];
      var arr := new Edge[|out|](i requires 0 <= i < |out| => out[i]);
      assert arr[..] == out;
      r := new EdgeList(n, arr);
    }

    /** `n` lists; list `u` holds the target of every edge leaving `u`, in edge
        order. A source outside `[0, n)` makes `adj[u].push` throw. */
    method ToAdjacencyList() returns (r: Result<AdjacencyList>)
      requires Valid()
      ensures r.Ok? <==> n >= 0 && forall k :: 0 <= k < edges.Length ==> 0 <= edges[k].0 < n
      ensures r.Ok? ==> r.value.n == n && |r.value.adj| == n && r.value.m == m
      ensures r.Ok? ==> forall u :: 0 <= u < n ==> r.value.adj[u] == Targets(edges[..], u)
      ensures (exists k :: 0 <= k < edges.Length && !(0 <= edges[k].0 < n)) ==>
                r == Err("TypeError: Cannot read properties of undefined (reading 'push')")
      ensures n < 0 && (forall k :: 0 <= k < edges.Length ==> 0 <= edges[k].0 < n) ==>
                r == Err("Invalid adjacency list")
    {
      var adj := EmptyLists(n);
      var filled :- PushTargets(edges[..], adj);
      r := NewAdjacencyList(n, filled);
    }
  }

  datatype AdjacencyList = AdjacencyList(n: int, m: nat, adj: seq<seq<int>>)

  /** The `AdjacencyList` constructor: throws unless there is one list per node,
      and counts the edges as the sum of the list lengths. */
  method NewAdjacencyList(n: int, adj: seq<seq<int>>) returns (r: Result<AdjacencyList>)
    ensures r.Ok? <==> |adj| == n
    ensures r.Err? ==> r.error == "Invalid adjacency list"
    ensures r.Ok? ==> r.value.n == n && r.value.adj == adj && r.value.m == TotalLength(adj)
  {
    if |adj| != n {
      return Err("Invalid adjacency list");
    }
    var m := 0;
    for i := 0 to n
      invariant m == TotalLength(adj[..i])
    {
      assert adj[..i + 1][..i] == adj[..i];
      m := m + |adj[i]|;
    }
    assert adj[..n] == adj;
    r := Ok(AdjacencyList(n, m, adj));
  }

  datatype AdjacencyMatrix = AdjacencyMatrix(n: int, m: nat, adj: seq<seq<bool>>)

  /** The number of `true` cells of one row. */
  function CountRow(row: seq<bool>): nat {
    if row == [] then 0 else CountRow(row[..|row| - 1]) + (if row[|row| - 1] then 1 else 0)
  }

  /** The number of `true` cells of a matrix. */
  function CountCells(rows: seq<seq<bool>>): nat {
    if rows == [] then 0 else CountCells(rows[..|rows| - 1]) + CountRow(rows[|rows| - 1])
  }

  lemma {:induction false} CountRowBound(row: seq<bool>)
    ensures CountRow(row) <= |row|
    ensures CountRow(row) == |row| <==> forall j :: 0 <= j < |row| ==> row[j]
  {
    if row != [] {
      CountRowBound(row[..|row| - 1]);
    }
  }

  /** The `AdjacencyMatrix` constructor: throws unless there are `n` rows of
      length `n`, and counts the `true` cells. */
  method NewAdjacencyMatrix(n: int, adj: seq<seq<bool>>) returns (r: Result<AdjacencyMatrix>)
    ensures r.Ok? <==> |adj| == n && forall i :: 0 <= i < n ==> |adj[i]| == n
    ensures r.Err? ==> r.error == "Invalid adjacency matrix"
    ensures r.Ok? ==> r.value.n == n && r.value.adj == adj && r.value.m == CountCells(adj)
  {
    if |adj| != n {
      return Err("Invalid adjacency matrix");
    }
    var m := 0;
    for i := 0 to n
      invariant forall k :: 0 <= k < i ==> |adj[k]| == n
      invariant m == CountCells(adj[..i])
    {
      if |adj[i]| != n {
        return Err("Invalid adjacency matrix");
      }
      assert adj[..i + 1][..i] == adj[..i];
      var row := adj[i];
      for j := 0 to n
        invariant m == CountCells(adj[..i]) + CountRow(row[..j])
      {
        assert row[..j + 1][..j] == row[..j];
        if row[j] {
          m := m + 1;
        }
      }
      assert row[..n] == row;
    }
    assert adj[..n] == adj;
    r := Ok(AdjacencyMatrix(n, m, adj));
  }
}
