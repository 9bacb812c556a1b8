/** The flow network that primary_balancer_per_app builds for one app. */
module FlowNetwork {
  import opened Counting
  import opened Cluster
  import opened WidestPath

  /** The network for a target of `t` primaries per server: servers above the target are fed by the
      source, servers below it feed the sink, and a primary can move to each of its secondaries. */
  function Capacity(v: View, t: int, i: nat, j: nat): int {
    if i == 0 && 1 <= j <= v.n then (if Primaries(v, j) > t then Primaries(v, j) - t else 0)
    else if 1 <= i <= v.n && j == v.n + 1 then (if Primaries(v, i) < t then t - Primaries(v, i) else 0)
    else if 1 <= i <= v.n && 1 <= j <= v.n then Movable(v, i, j)
    else 0
  }

  ghost predicate IsNetwork(v: View, t: int, net: Network) {
    && |net| == v.n + 2
    && (forall i :: 0 <= i < v.n + 2 ==> |net[i]| == v.n + 2)
    && (forall i, j :: 0 <= i < v.n + 2 && 0 <= j < v.n + 2 ==> net[i][j] == Capacity(v, t, i, j))
  }

  lemma NetworkIsValid(v: View, t: int, net: Network)
    requires ValidView(v) && 0 <= t <= INT_MAX && IsNetwork(v, t, net)
    ensures ValidNetwork(net)
  {}

  /** No primary of a server above the target has a secondary on a server below it. */
  ghost predicate Stuck(v: View, t: int) {
    forall i, s :: 0 <= i < |v.configs| && 1 <= s <= v.n
                   && Primaries(v, v.configs[i].primary) > t && Primaries(v, s) < t ==>
                     s !in v.configs[i].secondaries
  }

  /** Such a secondary would be an augmenting path of three edges. */
  lemma NoPathMeansStuck(v: View, t: int, net: Network)
    requires ValidView(v) && IsNetwork(v, t, net) && ValidNetwork(net)
    requires !Reachable(net, v.n + 1)
    ensures Stuck(v, t)
  {
    forall i, s | 0 <= i < |v.configs| && 1 <= s <= v.n
                  && Primaries(v, v.configs[i].primary) > t && Primaries(v, s) < t
      ensures s !in v.configs[i].secondaries
    {
      if s in v.configs[i].secondaries {
        var a := v.configs[i].primary;
        CountNone(v.configs, MovableTo(a, s));
        var p: seq<nat> := [0, a, s, v.n + 1];
        assert net[0][a] > 0 && net[a][s] > 0 && net[s][v.n + 1] > 0;
        assert PathTo(net, p, v.n + 1);
        ThreeEdges(net, p);
      }
    }
  }

  lemma ThreeEdges(net: Network, p: seq<nat>)
    requires ValidNetwork(net) && Walk(net, p) && |p| == 4
    requires net[p[0]][p[1]] > 0 && net[p[1]][p[2]] > 0 && net[p[2]][p[3]] > 0
    ensures Width(net, p) > 0
  {
    var q := p[..3];
    var r := q[..2];
    assert Width(net, r[..1]) == INT_MAX;
    assert Width(net, r) == Min(Width(net, r[..1]), net[p[0]][p[1]]);
    assert Width(net, q) == Min(Width(net, r), net[p[1]][p[2]]);
  }

  /** Every edge of a walk is at least as wide as the walk. */
  lemma {:induction false} EdgeAtLeastWidth(net: Network, p: seq<nat>, k: nat)
    requires ValidNetwork(net) && Walk(net, p) && 0 < k < |p|
    ensures Width(net, p) <= net[p[k - 1]][p[k]]
  {
    if k < |p| - 1 {
      EdgeAtLeastWidth(net, p[..|p| - 1], k);
    }
  }

  /** An augmenting path leads from the source over at least two servers, all but the last two ends
      being servers, to the sink: no server is both above and below the target. */
  lemma PathShape(v: View, t: int, net: Network, p: seq<nat>)
    requires ValidView(v) && IsNetwork(v, t, net) && ValidNetwork(net)
    requires PathTo(net, p, v.n + 1) && Simple(p) && Width(net, p) > 0
    ensures |p| >= 4 && forall k :: 0 < k < |p| - 1 ==> 1 <= p[k] <= v.n
  {}

  /** The network[from][target]++ loop over the secondaries of one partition. */
  method AddSecondaries(row: seq<int>, c: Config, n: nat) returns (r: seq<int>)
    requires ValidConfig(c, n) && |row| == n + 2
    ensures |r| == n + 2
    ensures forall j :: 0 <= j < n + 2 ==> r[j] == row[j] + if j in c.secondaries then 1 else 0
  {
    r := row;
    for k := 0 to |c.secondaries|
      invariant |r| == n + 2
      invariant forall j :: 0 <= j < n + 2 ==> r[j] == row[j] + if j in c.secondaries[..k] then 1 else 0
    {
      var target := c.secondaries[k];
      assert target in c.secondaries && target !in c.secondaries[..k];
      r := r[target := r[target] + 1];
      assert c.secondaries[..k + 1] == c.secondaries[..k] + [target];
    }
    assert c.secondaries[..|c.secondaries|] == c.secondaries;
  }

  /** One row of the network: the edges out of server `from`. */
  method ServerRow(v: View, from: nat, toSink: int) returns (row: seq<int>)
    requires ValidView(v) && 1 <= from <= v.n
    ensures |row| == v.n + 2
    ensures forall j :: 0 <= j < v.n + 2 ==>
              row[j] == if j == v.n + 1 then toSink else Movable(v, from, j)
  {
    row := seq(v.n + 2, _ => 0)[v.n + 1 := toSink];
    for i := 0 to |v.configs|
      invariant |row| == v.n + 2 && row[v.n + 1] == toSink
      invariant forall j :: 0 <= j < v.n + 1 ==> row[j] == Count(v.configs[..i], MovableTo(from, j))
    {
      forall j | 0 <= j < v.n + 1
        ensures Count(v.configs[..i + 1], MovableTo(from, j)) ==
                Count(v.configs[..i], MovableTo(from, j)) + if Holds(MovableTo(from, j), v.configs[i]) then 1 else 0
      {
        CountPrefix(v.configs, i, MovableTo(from, j));
      }
      if v.configs[i].primary == from {
        row := AddSecondaries(row, v.configs[i], v.n);
      }
    }
    assert v.configs[..|v.configs|] == v.configs;
  }

  lemma NothingMovesToTheSource(v: View, from: nat)
    requires ValidView(v)
    ensures Movable(v, from, 0) == 0
  {
    CountNone(v.configs, MovableTo(from, 0));
  }

  /** The network before adjustment is the one for the target `low`. */
  method MakeGraph(v: View, low: nat) returns (net: Network)
    requires ValidView(v)
    ensures IsNetwork(v, low, net)
  {
    var zeros := seq(v.n + 2, _ => 0);
    net := seq(v.n + 2, _ => zeros);
    for from := 1 to v.n + 1
      invariant |net| == v.n + 2 && |net[0]| == v.n + 2
      invariant forall i :: 1 <= i < v.n + 2 ==> |net[i]| == v.n + 2
      invariant forall j :: 0 <= j < v.n + 2 ==> net[0][j] == if j < from then Capacity(v, low, 0, j) else 0
      invariant forall i, j :: 1 <= i < from && 0 <= j < v.n + 2 ==> net[i][j] == Capacity(v, low, i, j)
      invariant net[v.n + 1] == zeros
    {
      var c := Primaries(v, from);
      if c > low {
        net := net[0 := net[0][from := c - low]];
      }
      var row := ServerRow(v, from, if c > low then 0 else low - c);
      NothingMovesToTheSource(v, from);
      net := net[from := row];
    }
  }

  /** The adjustment for "only too-high servers": it turns the network for the target `low` into the
      network for `low + 1`. The entry between source and sink is raised at the first index and
      lowered again at the last. */
  method RaiseTarget(v: View, low: nat, graph: Network) returns (net: Network)
    requires ValidView(v) && IsNetwork(v, low, graph)
    requires forall s :: 1 <= s <= v.n ==> Primaries(v, s) >= low
    ensures IsNetwork(v, low + 1, net)
  {
    var last := v.n + 1;
    net := graph;
    for i := 0 to v.n + 2
      invariant |net| == v.n + 2 && forall k :: 0 <= k < v.n + 2 ==> |net[k]| == v.n + 2
      invariant forall k, j :: 1 <= k < v.n + 2 && 0 <= j < last ==> net[k][j] == graph[k][j]
      invariant forall j :: 0 <= j < last ==> net[0][j] == Capacity(v, if j < i then low + 1 else low, 0, j)
      invariant forall k :: 1 <= k <= last ==>
                  net[k][last] == Capacity(v, if k < i then low + 1 else low, k, last)
      invariant net[0][last] == if 0 < i <= last then 1 else 0
    {
      if net[0][i] > 0 {
        net := net[0 := net[0][i := net[0][i] - 1]];
      } else {
        net := net[i := net[i][last := net[i][last] + 1]];
      }
    }
  }
}
