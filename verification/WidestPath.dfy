/** The widest-path search the greedy balancer uses to look for an augmenting path
    (src/meta/greedy_load_balancer.cpp, shortest_path). Node 0 is the flow source and the last
    node is the sink. */
module WidestPath {
  import opened Counting

  type Network = seq<seq<int>>

  /** A square, non-empty matrix of C++ ints that are not negative. */
  predicate ValidNetwork(net: Network) {
    && |net| > 0
    && (forall i :: 0 <= i < |net| ==> |net[i]| == |net|)
    && (forall i, j :: 0 <= i < |net| && 0 <= j < |net| ==> 0 <= net[i][j] <= INT_MAX)
  }

  function Min(a: int, b: int): int {
    if a < b then a else b
  }

  /** `p` is a walk over nodes of `net` that starts at the flow source. */
  ghost predicate Walk(net: Network, p: seq<nat>) {
    && |p| > 0 && p[0] == 0
    && forall i :: 0 <= i < |p| ==> p[i] < |net|
  }

  ghost predicate PathTo(net: Network, p: seq<nat>, v: nat) {
    Walk(net, p) && p[|p| - 1] == v
  }

  /** The smallest capacity on the walk; INT_MAX for the walk that stays at the source. */
  ghost function Width(net: Network, p: seq<nat>): int
    requires ValidNetwork(net) && Walk(net, p)
  {
    if |p| == 1 then INT_MAX
    else Min(Width(net, p[..|p| - 1]), net[p[|p| - 2]][p[|p| - 1]])
  }

  ghost predicate Reachable(net: Network, v: nat)
    requires ValidNetwork(net)
  {
    exists p :: PathTo(net, p, v) && Width(net, p) > 0
  }

  ghost predicate Simple(p: seq<nat>) {
    forall i, j :: 0 <= i < j < |p| ==> p[i] != p[j]
  }

  /** Following `prev` from the end of `p` walks `p` backwards and stops at the source. */
  ghost predicate TracedBy(p: seq<nat>, prev: seq<int>)
    requires forall i :: 0 <= i < |p| ==> p[i] < |prev|
  {
    && |p| > 0 && p[0] == 0 && prev[0] == -1
    && forall i :: 0 < i < |p| ==> prev[p[i]] == p[i - 1]
  }

  ghost predicate NoWider(net: Network, v: nat, bound: int)
    requires ValidNetwork(net)
  {
    forall p :: PathTo(net, p, v) ==> Width(net, p) <= bound
  }

  /** The vectors the search fills in, one entry per graph node. */
  datatype Labels = Labels(visit: seq<bool>, flow: seq<int>, prev: seq<int>) {
    predicate Fits(n: nat) {
      |visit| == |flow| == |prev| == n
    }
  }

  /** What a caller may rely on: the sink is visited exactly when it can be reached over positive
      capacities; its flow is then the largest width of any path to it, and `prev` leads back to
      the source along one simple path of exactly that width. */
  ghost predicate WidestPathFound(net: Network, s: Labels)
    requires ValidNetwork(net)
  {
    && s.Fits(|net|)
    && var sink := |net| - 1;
    && (s.visit[sink] <==> Reachable(net, sink))
    && (s.visit[sink] ==>
          && s.flow[sink] > 0
          && NoWider(net, sink, s.flow[sink])
          && exists p :: PathTo(net, p, sink) && Simple(p) && TracedBy(p, s.prev) && Width(net, p) == s.flow[sink])
  }

  // Loop invariant of the search. `stamp` numbers the visits: later visits have larger stamps.

  ghost predicate Shape(net: Network, s: Labels)
    requires ValidNetwork(net)
  {
    && s.Fits(|net|)
    && s.flow[0] == INT_MAX && s.prev[0] == -1
    && (forall i :: 0 <= i < |net| ==> 0 <= s.flow[i] && (s.visit[i] ==> s.flow[i] > 0))
    && (!s.visit[0] ==> forall i :: 0 < i < |net| ==> s.flow[i] == 0)
  }

  ghost predicate Labelled(net: Network, s: Labels, stamp: seq<nat>, i: nat)
    requires ValidNetwork(net) && s.Fits(|net|) && |stamp| == |net| && i < |net|
  {
    && 0 <= s.prev[i] < |net| && s.visit[s.prev[i]]
    && s.flow[i] == Min(s.flow[s.prev[i]], net[s.prev[i]][i])
    && (s.visit[i] ==> stamp[s.prev[i]] < stamp[i])
  }

  ghost predicate AllLabelled(net: Network, s: Labels, stamp: seq<nat>, clock: nat)
    requires ValidNetwork(net) && s.Fits(|net|)
  {
    && |stamp| == |net|
    && (forall i :: 0 <= i < |net| && s.visit[i] ==> stamp[i] < clock)
    && (forall i :: 0 < i < |net| && s.flow[i] > 0 ==> Labelled(net, s, stamp, i))
  }

  ghost predicate Relaxed(net: Network, s: Labels)
    requires ValidNetwork(net) && s.Fits(|net|)
  {
    forall u, i :: 0 <= u < |net| && s.visit[u] && 0 <= i < |net| && !s.visit[i] ==>
                     Min(s.flow[u], net[u][i]) <= s.flow[i]
  }

  ghost predicate Settled(net: Network, s: Labels)
    requires ValidNetwork(net) && s.Fits(|net|)
  {
    forall u :: 0 <= u < |net| && s.visit[u] ==> NoWider(net, u, s.flow[u])
  }

  ghost predicate Searching(net: Network, s: Labels, stamp: seq<nat>, clock: nat)
    requires ValidNetwork(net)
  {
    Shape(net, s) && AllLabelled(net, s, stamp, clock) && Relaxed(net, s) && Settled(net, s)
  }

  /** No unvisited node has more flow than `bound`. */
  ghost predicate OpenAtMost(s: Labels, bound: int)
    requires s.Fits(|s.visit|)
  {
    forall j :: 0 <= j < |s.visit| && !s.visit[j] ==> s.flow[j] <= bound
  }

  /** The node the selection loop picks: an unvisited one with the largest positive flow. */
  ghost predicate Widest(s: Labels, pos: nat)
    requires s.Fits(|s.visit|)
  {
    pos < |s.visit| && !s.visit[pos] && s.flow[pos] > 0 && OpenAtMost(s, s.flow[pos])
  }

  /** `t` is `s` after `pos` has been visited and its edges relaxed. */
  ghost predicate Visited(net: Network, s: Labels, pos: nat, t: Labels)
    requires ValidNetwork(net) && s.Fits(|net|) && pos < |net|
  {
    && t.Fits(|net|)
    && t.visit == s.visit[pos := true]
    && forall i :: 0 <= i < |net| ==>
         if !t.visit[i] && Min(s.flow[pos], net[pos][i]) > s.flow[i]
         then t.flow[i] == Min(s.flow[pos], net[pos][i]) && t.prev[i] == pos
         else t.flow[i] == s.flow[i] && t.prev[i] == s.prev[i]
  }

  /** The first step of a walk that leaves the visited nodes bounds the width of the whole walk. */
  lemma {:induction false} CutBound(net: Network, s: Labels, p: seq<nat>, bound: int)
    requires ValidNetwork(net) && Shape(net, s) && Relaxed(net, s) && Settled(net, s) && OpenAtMost(s, bound)
    requires s.visit[0] && Walk(net, p) && !s.visit[p[|p| - 1]]
    ensures Width(net, p) <= bound
  {
    var q := p[..|p| - 1];
    var u, v := p[|p| - 2], p[|p| - 1];
    if s.visit[u] {
      assert PathTo(net, q, u);
      assert Min(s.flow[u], net[u][v]) <= s.flow[v];
    } else {
      CutBound(net, s, q, bound);
    }
  }

  lemma {:induction false} WidthAtMostMax(net: Network, p: seq<nat>)
    requires ValidNetwork(net) && Walk(net, p)
    ensures Width(net, p) <= INT_MAX
  {}

  /** The flow of the widest open node is final: no path to it is wider. */
  lemma WidestIsSettled(net: Network, s: Labels, pos: nat)
    requires ValidNetwork(net) && Shape(net, s) && Relaxed(net, s) && Settled(net, s) && Widest(s, pos)
    ensures NoWider(net, pos, s.flow[pos])
  {
    forall p | PathTo(net, p, pos) ensures Width(net, p) <= s.flow[pos] {
      if s.visit[0] {
        CutBound(net, s, p, s.flow[pos]);
      } else {
        WidthAtMostMax(net, p);
      }
    }
  }

  lemma VisitKeepsLabels(net: Network, s: Labels, stamp: seq<nat>, clock: nat, pos: nat, t: Labels)
    requires ValidNetwork(net) && Shape(net, s) && AllLabelled(net, s, stamp, clock)
    requires Widest(s, pos) && Visited(net, s, pos, t)
    ensures Shape(net, t) && AllLabelled(net, t, stamp[pos := clock], clock + 1)
  {}

  /** Visiting the widest open node and relaxing its edges keeps the invariant. */
  lemma VisitKeepsSearching(net: Network, s: Labels, stamp: seq<nat>, clock: nat, pos: nat, t: Labels)
    requires ValidNetwork(net) && Searching(net, s, stamp, clock)
    requires Widest(s, pos) && Visited(net, s, pos, t)
    ensures Searching(net, t, stamp[pos := clock], clock + 1)
  {
    VisitKeepsLabels(net, s, stamp, clock, pos, t);
    WidestIsSettled(net, s, pos);
    assert Settled(net, t) by {
      forall u | 0 <= u < |net| && t.visit[u] ensures NoWider(net, u, t.flow[u]) {
        assert u == pos || s.visit[u];
      }
    }
  }

  lemma TraceOneMore(net: Network, prev: seq<int>, q: seq<nat>, v: nat)
    requires ValidNetwork(net) && |prev| == |net| && v < |net| && 0 <= prev[v]
    requires PathTo(net, q, prev[v]) && TracedBy(q, prev)
    ensures PathTo(net, q + [v], v) && TracedBy(q + [v], prev)
    ensures Width(net, q + [v]) == Min(Width(net, q), net[prev[v]][v])
  {
    var p := q + [v];
    assert p[..|p| - 1] == q;
  }

  /** Each visited node has a simple path of width exactly its flow, traced by `prev`. */
  lemma {:induction false} TraceBack(net: Network, s: Labels, stamp: seq<nat>, clock: nat, v: nat)
    returns (p: seq<nat>)
    requires ValidNetwork(net) && Shape(net, s) && AllLabelled(net, s, stamp, clock)
    requires v < |net| && s.visit[v]
    ensures PathTo(net, p, v) && TracedBy(p, s.prev) && Width(net, p) == s.flow[v]
    ensures Simple(p) && forall i :: 0 <= i < |p| ==> stamp[p[i]] <= stamp[v]
    decreases stamp[v]
  {
    if v == 0 {
      p := [0];
    } else {
      assert Labelled(net, s, stamp, v);
      var q := TraceBack(net, s, stamp, clock, s.prev[v]);
      TraceOneMore(net, s.prev, q, v);
      p := q + [v];
    }
  }

  /** When the sink has been visited, or no open node has flow left, the search has its answer. */
  lemma SearchDone(net: Network, s: Labels, stamp: seq<nat>, clock: nat)
    requires ValidNetwork(net) && Searching(net, s, stamp, clock)
    requires s.visit[|net| - 1] || OpenAtMost(s, 0)
    ensures WidestPathFound(net, s)
  {
    var sink := |net| - 1;
    if s.visit[sink] {
      var p := TraceBack(net, s, stamp, clock, sink);
      assert PathTo(net, p, sink) && Width(net, p) > 0;
    } else {
      assert s.visit[0];
      forall p | PathTo(net, p, sink) ensures Width(net, p) <= 0 {
        CutBound(net, s, p, 0);
      }
    }
  }

  /** The number of nodes still to be visited. */
  ghost function Unvisited(visit: seq<bool>): nat {
    if visit == [] then 0 else (if visit[0] then 0 else 1) + Unvisited(visit[1..])
  }

  lemma {:induction false} VisitDecreases(visit: seq<bool>, pos: nat)
    requires pos < |visit| && !visit[pos]
    ensures Unvisited(visit[pos := true]) < Unvisited(visit)
  {
    if pos > 0 {
      VisitDecreases(visit[1..], pos - 1);
      assert visit[pos := true][1..] == visit[1..][pos - 1 := true];
    }
  }

  /** The selection loop: the widest open node, or -1 when no open node has positive flow. */
  method SelectWidest(visit: array<bool>, flow: array<int>, ghost s: Labels) returns (pos: int)
    requires s.Fits(visit.Length) && s.visit == visit[..] && s.flow == flow[..]
    ensures pos == -1 ==> OpenAtMost(s, 0)
    ensures pos != -1 ==> pos >= 0 && Widest(s, pos)
  {
    var maxValue := 0;
    pos := -1;
    for i := 0 to visit.Length
      invariant -1 <= pos < i
      invariant pos == -1 ==> maxValue == 0
      invariant pos != -1 ==> !visit[pos] && flow[pos] == maxValue > 0
      invariant forall j :: 0 <= j < i && !visit[j] ==> flow[j] <= maxValue
    {
      if !visit[i] && flow[i] > maxValue {
        pos := i;
        maxValue := flow[i];
      }
    }
  }

  /** The relaxation loop for a node that has just been marked as visited. */
  method RelaxFrom(pos: nat, visit: array<bool>, flow: array<int>, prev: array<int>, net: Network, ghost s: Labels)
    requires ValidNetwork(net) && s.Fits(|net|) && pos < |net|
    requires visit.Length == flow.Length == prev.Length == |net| && flow != prev
    requires visit[..] == s.visit[pos := true] && flow[..] == s.flow && prev[..] == s.prev
    modifies flow, prev
    ensures Visited(net, s, pos, Labels(visit[..], flow[..], prev[..]))
  {
    for i := 0 to |net|
      invariant flow[pos] == s.flow[pos]
      invariant forall j :: 0 <= j < i ==>
                  if !visit[j] && Min(s.flow[pos], net[pos][j]) > s.flow[j]
                  then flow[j] == Min(s.flow[pos], net[pos][j]) && prev[j] == pos
                  else flow[j] == s.flow[j] && prev[j] == s.prev[j]
      invariant forall j :: i <= j < |net| ==> flow[j] == s.flow[j] && prev[j] == s.prev[j]
    {
      if !visit[i] && Min(flow[pos], net[pos][i]) > flow[i] {
        flow[i] := Min(flow[pos], net[pos][i]);
        prev[i] := pos;
      }
    }
  }

  method ShortestPath(visit: array<bool>, flow: array<int>, prev: array<int>, net: Network)
    requires ValidNetwork(net)
    requires visit.Length == flow.Length == prev.Length == |net| && flow != prev
    requires forall i :: 0 <= i < |net| ==> !visit[i] && flow[i] == 0 && prev[i] == -1
    modifies visit, flow, prev
    ensures WidestPathFound(net, Labels(visit[..], flow[..], prev[..]))
  {
    flow[0] := INT_MAX;
    var n := |net|;
    ghost var stamp: seq<nat>, clock := seq(n, i => 0), 0;
    ghost var s := Labels(visit[..], flow[..], prev[..]);
    while !visit[n - 1]
      invariant s == Labels(visit[..], flow[..], prev[..])
      invariant Searching(net, s, stamp, clock)
      decreases Unvisited(s.visit)
    {
      var pos := SelectWidest(visit, flow, s);
      if pos == -1 {
        break;
      }
      visit[pos] := true;
      RelaxFrom(pos, visit, flow, prev, net, s);
      ghost var t := Labels(visit[..], flow[..], prev[..]);
      VisitKeepsSearching(net, s, stamp, clock, pos, t);
      VisitDecreases(s.visit, pos);
      s, stamp, clock := t, stamp[pos := clock], clock + 1;
    }
    SearchDone(net, s, stamp, clock);
  }
}
