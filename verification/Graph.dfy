/** Paths and cycles in finite directed graphs: the vocabulary in which import
    resolution and shutdown are specified. */
module Graph {

  /** Node i has an edge to every member of g[i]. */
  type Digraph = seq<set<nat>>

  ghost predicate Closed(g: Digraph) {
    forall i, j | 0 <= i < |g| && j in g[i] :: j < |g|
  }

  ghost predicate IsPath(g: Digraph, p: seq<nat>) {
    && p != []
    && (forall k | 0 <= k < |p| :: p[k] < |g|)
    && (forall k, m | 0 <= k && m == k + 1 < |p| :: p[m] in g[p[k]])
  }

  ghost predicate IsCycle(g: Digraph, p: seq<nat>) {
    && IsPath(g, p)
    && 2 <= |p|
    && p[0] == p[|p| - 1]
  }

  ghost predicate Acyclic(g: Digraph) {
    forall p :: !IsCycle(g, p)
  }

  /** Every edge goes to a node of smaller rank. */
  ghost predicate Ranked(g: Digraph, rank: seq<nat>) {
    && |rank| == |g|
    && (forall i, j | 0 <= i < |g| && j in g[i] && j < |g| :: rank[j] < rank[i])
  }

  lemma {:induction false} RankFallsAlongPath(g: Digraph, rank: seq<nat>, p: seq<nat>)
    requires Ranked(g, rank) && IsPath(g, p)
    ensures rank[p[|p| - 1]] + |p| <= rank[p[0]] + 1
  {
    if |p| > 1 {
      var q := p[1..];
      assert forall k | 0 <= k < |q| :: q[k] == p[k + 1];
      RankFallsAlongPath(g, rank, q);
      assert p[1] in g[p[0]];
    }
  }

  lemma RankedIsAcyclic(g: Digraph, rank: seq<nat>)
    requires Ranked(g, rank)
    ensures Acyclic(g)
  {
    forall p ensures !IsCycle(g, p) {
      if IsCycle(g, p) {
        RankFallsAlongPath(g, rank, p);
      }
    }
  }

  lemma {:induction false} Pigeonhole(p: seq<nat>, s: set<nat>) returns (a: nat, b: nat)
    requires |p| > |s|
    requires forall k | 0 <= k < |p| :: p[k] in s
    ensures a < b < |p| && p[a] == p[b]
    decreases |p|
  {
    var rest := p[1..];
    if p[0] in rest {
      var k :| 0 <= k < |rest| && rest[k] == p[0];
      a, b := 0, k + 1;
    } else {
      a, b := Pigeonhole(rest, s - {p[0]});
      a, b := a + 1, b + 1;
    }
  }

  /** A path that visits more nodes than it may visit contains a cycle. */
  lemma LongPathHasCycle(g: Digraph, p: seq<nat>, s: set<nat>) returns (c: seq<nat>)
    requires IsPath(g, p) && |p| > |s|
    requires forall k | 0 <= k < |p| :: p[k] in s
    ensures IsCycle(g, c)
    ensures forall k | 0 <= k < |c| :: c[k] in s
  {
    var a, b := Pigeonhole(p, s);
    c := p[a..b + 1];
    assert forall k | 0 <= k < |c| :: c[k] == p[a + k];
  }

  lemma PathCons(g: Digraph, start: nat, rest: seq<nat>) returns (p: seq<nat>)
    requires IsPath(g, rest) && start < |g| && rest[0] in g[start]
    ensures p == [start] + rest && IsPath(g, p)
  {
    p := [start] + rest;
    forall k, m | 0 <= k && m == k + 1 < |p| ensures p[m] in g[p[k]] {
      assert p[m] == rest[k];
    }
  }

  /** Every node of s keeps an edge into s. */
  ghost predicate Stuck(g: Digraph, s: set<nat>) {
    s != {} && forall i {:trigger LeadsInto(g, i, s)} | i in s :: LeadsInto(g, i, s)
  }

  ghost predicate LeadsInto(g: Digraph, i: nat, s: set<nat>) {
    i < |g| && exists j :: j in g[i] && j in s
  }

  lemma {:induction false} WalkInside(g: Digraph, s: set<nat>, start: nat, n: nat) returns (p: seq<nat>)
    requires Stuck(g, s) && start in s
    ensures IsPath(g, p) && |p| == n + 1 && p[0] == start
    ensures forall k | 0 <= k < |p| :: p[k] in s
    decreases n
  {
    assert LeadsInto(g, start, s);
    if n == 0 {
      p := [start];
    } else {
      var next :| next in g[start] && next in s;
      var rest := WalkInside(g, s, next, n - 1);
      p := PathCons(g, start, rest);
    }
  }

  lemma StuckHasCycle(g: Digraph, s: set<nat>)
    requires Stuck(g, s)
    ensures exists c :: IsCycle(g, c) && forall k | 0 <= k < |c| :: c[k] in s
    ensures !Acyclic(g)
  {
    var start :| start in s;
    var p := WalkInside(g, s, start, |s|);
    var c := LongPathHasCycle(g, p, s);
  }

  /** The nodes of a cycle are a set no node of which can leave. */
  lemma CycleIsStuck(g: Digraph, c: seq<nat>)
    requires IsCycle(g, c)
    ensures Stuck(g, set k | 0 <= k < |c| :: c[k])
  {
    var s := set k | 0 <= k < |c| :: c[k];
    assert c[0] in s;
    forall i | i in s ensures LeadsInto(g, i, s) {
      var k :| 0 <= k < |c| && c[k] == i;
      var next := if k < |c| - 1 then c[k + 1] else c[1];
      assert next in g[i] && next in s;
    }
  }

  ghost function Nodes(n: nat): (s: set<nat>)
    ensures |s| == n
    ensures forall i: nat :: i in s <==> i < n
  {
    if n == 0 then {} else Nodes(n - 1) + {n - 1}
  }

  /** In an acyclic graph no path visits more nodes than there are. */
  lemma AcyclicPathBound(g: Digraph, p: seq<nat>)
    requires Acyclic(g) && IsPath(g, p)
    ensures |p| <= |g|
  {
    if |p| > |g| {
      var c := LongPathHasCycle(g, p, Nodes(|g|));
    }
  }
}
