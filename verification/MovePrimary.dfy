/** move_primary_based_on_flow_per_app: move primaries to their secondaries along the augmenting path. */
module MovePrimary {
  import opened Counting
  import opened Cluster
  import opened WidestPath
  import opened FlowNetwork

  /** `f` units go from `a` to `b`; nothing happens when they are the same server. */
  ghost function ShiftBy(load: seq<int>, a: nat, b: nat, f: int): (r: seq<int>)
    requires a < |load| && b < |load|
    ensures |r| == |load|
    ensures forall s :: 0 <= s < |load| ==>
              r[s] == load[s] - (if s == a then f else 0) + (if s == b then f else 0)
  {
    var one := load[a := load[a] - f];
    one[b := one[b] + f]
  }

  predicate CanMove(v: View, from: nat, to: nat, i: nat) {
    i < |v.configs| && v.configs[i].primary == from && to in v.configs[i].secondaries
  }

  ghost predicate Increasing(list: seq<nat>) {
    forall i, j :: 0 <= i < j < |list| ==> list[i] < list[j]
  }

  /** The partitions that can still move, in partition order. */
  ghost predicate Lists(v: View, from: nat, to: nat, plan: Plan, list: seq<nat>) {
    Increasing(list) && forall i: nat {:trigger i in list} :: i in list <==> CanMove(v, from, to, i) && i !in plan
  }

  /** The primaries of `from` with a secondary on `to`. */
  method PotentialMoving(v: View, from: nat, to: nat) returns (list: seq<nat>)
    ensures Lists(v, from, to, map[], list) && |list| == Movable(v, from, to)
  {
    list := [];
    for i := 0 to |v.configs|
      invariant Increasing(list) && forall k: nat :: k in list <==> k < i && CanMove(v, from, to, k)
      invariant |list| == Count(v.configs[..i], MovableTo(from, to))
    {
      CountPrefix(v.configs, i, MovableTo(from, to));
      if CanMove(v, from, to, i) {
        assert forall k :: 0 <= k < |list| ==> list[k] in list;
        list := list + [i];
      }
    }
    assert v.configs[..|v.configs|] == v.configs;
  }

  /** All disk tags that get_disk_tag is asked for are known. */
  predicate TagsKnown(v: View) {
    forall i, s :: 0 <= i < |v.configs| && s in v.configs[i].secondaries ==> s in v.configs[i].disk
  }

  predicate HasTags(v: View, from: nat, to: nat, i: nat) {
    i < |v.configs| && from in v.configs[i].disk && to in v.configs[i].disk
  }

  function Score(v: View, from: nat, to: nat, prevLoad: DiskLoad, currentLoad: DiskLoad, i: nat): int
    requires HasTags(v, from, to, i)
  {
    LoadOf(prevLoad, v.configs[i].disk[from]) - LoadOf(currentLoad, v.configs[i].disk[to])
  }

  ghost predicate AllTagged(v: View, from: nat, to: nat, list: seq<nat>) {
    forall j :: 0 <= j < |list| ==> HasTags(v, from, to, list[j])
  }

  /** Among the first n, position k has the best score, and it is the first of equals. */
  ghost predicate TopScore(v: View, from: nat, to: nat, a: DiskLoad, b: DiskLoad, list: seq<nat>, n: nat, k: nat)
    requires AllTagged(v, from, to, list) && n <= |list|
  {
    && k < n
    && forall j :: 0 <= j < n ==>
         && Score(v, from, to, a, b, list[j]) <= Score(v, from, to, a, b, list[k])
         && (j < k ==> Score(v, from, to, a, b, list[j]) < Score(v, from, to, a, b, list[k]))
  }

  /** The scan for the best disk score. */
  method SelectMove(v: View, from: nat, to: nat, prevLoad: DiskLoad, currentLoad: DiskLoad, list: seq<nat>)
    returns (k: nat)
    requires list != [] && AllTagged(v, from, to, list)
    ensures TopScore(v, from, to, prevLoad, currentLoad, list, |list|, k)
  {
    k := 0;
    for i := 1 to |list|
      invariant TopScore(v, from, to, prevLoad, currentLoad, list, i, k)
    {
      if Score(v, from, to, prevLoad, currentLoad, list[i]) > Score(v, from, to, prevLoad, currentLoad, list[k]) {
        k := i;
      }
    }
  }

  /** `plan` extends `base` by moves from `from` to `to` only. */
  ghost predicate ExtendsBy(v: View, base: Plan, plan: Plan, from: nat, to: nat) {
    && (forall i :: i in base ==> i in plan && plan[i] == base[i])
    && forall i :: i in plan && i !in base ==>
         CanMove(v, from, to, i) && plan[i] == Request.MovePrimary(from, to)
  }

  /** `i` is the first partition with the best disk score among those that can still move. */
  ghost predicate BestMove(v: View, plan: Plan, from: nat, to: nat, a: DiskLoad, b: DiskLoad, i: nat) {
    && Tagged(v, from, to, i) && i !in plan
    && forall j: nat :: Tagged(v, from, to, j) && j !in plan ==>
         && Score(v, from, to, a, b, j) <= Score(v, from, to, a, b, i)
         && (j < i ==> Score(v, from, to, a, b, j) < Score(v, from, to, a, b, i))
  }

  ghost predicate Tagged(v: View, from: nat, to: nat, i: nat) {
    CanMove(v, from, to, i) && HasTags(v, from, to, i)
  }

  /** One move: the best one by the disk loads of the state that the plan so far leads to. */
  ghost predicate GreedyMove(v: View, plan: Plan, d: Decision) {
    && d.request.MovePrimary?
    && exists a, b ::
         && DiskAgrees(ExecutePlan(v, plan), d.request.from, a) && DiskAgrees(ExecutePlan(v, plan), d.request.to, b)
         && BestMove(v, plan, d.request.from, d.request.to, a, b, d.i)
  }

  /** Among the primaries of server a in b's reach, i sits on a disk of a with no fewer and on a disk of b with no more
      primaries than j, counted in view w. */
  ghost predicate BetterDisks(v: View, w: View, a: nat, b: nat, i: nat, j: nat)
    requires HasTags(v, a, b, i) && HasTags(v, a, b, j)
  {
    && DiskReplicas(w, a, true, v.configs[i].disk[a]) >= DiskReplicas(w, a, true, v.configs[j].disk[a])
    && DiskReplicas(w, b, true, v.configs[i].disk[b]) <= DiskReplicas(w, b, true, v.configs[j].disk[b])
  }

  /** A move takes from a full disk and gives to an empty one: nothing else that could move has better disks at both
      ends, unless they are just as good and it comes later. */
  lemma MoveIsNotDominated(v: View, plan: Plan, d: Decision, j: nat)
    requires GreedyMove(v, plan, d) && Tagged(v, d.request.from, d.request.to, j) && j !in plan
    requires Tagged(v, d.request.from, d.request.to, d.i)
    requires BetterDisks(v, ExecutePlan(v, plan), d.request.from, d.request.to, j, d.i)
    ensures BetterDisks(v, ExecutePlan(v, plan), d.request.from, d.request.to, d.i, j) && d.i <= j
  {
    var w, from, to := ExecutePlan(v, plan), d.request.from, d.request.to;
    var a, b :| DiskAgrees(w, from, a) && DiskAgrees(w, to, b) && BestMove(v, plan, from, to, a, b, d.i);
    assert LoadOf(a, v.configs[j].disk[from]) == DiskReplicas(w, from, true, v.configs[j].disk[from]);
    assert LoadOf(b, v.configs[j].disk[to]) == DiskReplicas(w, to, true, v.configs[j].disk[to]);
    assert LoadOf(a, v.configs[d.i].disk[from]) == DiskReplicas(w, from, true, v.configs[d.i].disk[from]);
    assert LoadOf(b, v.configs[d.i].disk[to]) == DiskReplicas(w, to, true, v.configs[d.i].disk[to]);
  }

  ghost predicate GreedyAt(v: View, steps: seq<Decision>, k: nat)
    requires k < |steps|
  {
    GreedyMove(v, PlanOf(steps[..k]), steps[k])
  }

  ghost predicate GreedyMoves(v: View, steps: seq<Decision>) {
    forall k {:trigger GreedyAt(v, steps, k)} :: 0 <= k < |steps| ==> GreedyAt(v, steps, k)
  }

  lemma GreedyMovesOneMore(v: View, steps: seq<Decision>, d: Decision)
    requires GreedyMoves(v, steps) && GreedyMove(v, PlanOf(steps), d)
    ensures GreedyMoves(v, steps + [d]) && PlanOf(steps + [d]) == PlanOf(steps)[d.i := d.request]
  {
    var all := steps + [d];
    assert all[..|steps|] == steps;
    forall k | 0 <= k < |all| ensures GreedyAt(v, all, k) {
      if k < |steps| {
        assert GreedyAt(v, steps, k) && all[..k] == steps[..k];
      }
    }
  }

  /** The two disk loads kept along an edge are those of the planned state, and the plan was made greedily. */
  ghost predicate MadeBest(v: View, plan: Plan, from: nat, to: nat, a: DiskLoad, b: DiskLoad, steps: seq<Decision>) {
    && DiskAgrees(ExecutePlan(v, plan), from, a) && DiskAgrees(ExecutePlan(v, plan), to, b)
    && plan == PlanOf(steps) && GreedyMoves(v, steps)
  }

  /** The state of the inner loop, with `done` moves planned along the edge. */
  ghost predicate AlongEdge(v: View, base: Plan, plan: Plan, from: nat, to: nat, list: seq<nat>, a: DiskLoad, b: DiskLoad,
                            load: seq<int>, done: nat, steps: seq<Decision>) {
    && 1 <= from <= v.n && 1 <= to <= v.n && from != to && |load| == v.n + 2
    && Lists(v, from, to, plan, list) && AllTagged(v, from, to, list) && ExtendsBy(v, base, plan, from, to)
    && LoadIs(ExecutePlan(v, plan), true, ShiftBy(load, from, to, done))
    && MadeBest(v, plan, from, to, a, b, steps)
  }

  lemma TaggedWithout(v: View, from: nat, to: nat, list: seq<nat>, k: nat)
    requires AllTagged(v, from, to, list) && k < |list|
    ensures AllTagged(v, from, to, list[..k] + list[k + 1..])
  {}

  lemma AlongOneMore(v: View, base: Plan, plan: Plan, from: nat, to: nat, list: seq<nat>, a: DiskLoad, b: DiskLoad,
                     load: seq<int>, done: nat, steps: seq<Decision>, k: nat)
    requires ValidView(v) && AlongEdge(v, base, plan, from, to, list, a, b, load, done, steps)
    requires TopScore(v, from, to, a, b, list, |list|, k)
    ensures var i, r := list[k], Request.MovePrimary(from, to);
            && HasTags(v, from, to, i)
            && AlongEdge(v, base, plan[i := r], from, to, list[..k] + list[k + 1..], Less(a, v.configs[i].disk[from]),
                         More(b, v.configs[i].disk[to]), load, done + 1, steps + [Decision(i, r)])
  {
    MoveOneMore(v, base, plan, from, to, list, k, load, done);
    BestOneMore(v, plan, from, to, a, b, steps, list, k);
    TaggedWithout(v, from, to, list, k);
  }

  /** One move: the best of the list. */
  method MoveOne(v: View, ghost base: Plan, plan: Plan, from: nat, to: nat, list: seq<nat>, a: DiskLoad, b: DiskLoad,
                 ghost load: seq<int>, ghost done: nat, ghost steps: seq<Decision>)
    returns (plan': Plan, list': seq<nat>, a': DiskLoad, b': DiskLoad, ghost steps': seq<Decision>)
    requires ValidView(v) && list != []
    requires AlongEdge(v, base, plan, from, to, list, a, b, load, done, steps)
    ensures AlongEdge(v, base, plan', from, to, list', a', b', load, done + 1, steps') && |list'| == |list| - 1
  {
    var k := SelectMove(v, from, to, a, b, list);
    var i, r := list[k], Request.MovePrimary(from, to);
    AlongOneMore(v, base, plan, from, to, list, a, b, load, done, steps, k);
    plan', steps', list' := plan[i := r], steps + [Decision(i, r)], list[..k] + list[k + 1..];
    a', b' := Less(a, v.configs[i].disk[from]), More(b, v.configs[i].disk[to]);
  }

  lemma StartEdge(v: View, base: Plan, from: nat, to: nat, list: seq<nat>, load: seq<int>)
    requires Lists(v, from, to, map[], list) && from < |load| && to < |load|
    requires forall i :: i in base ==> i < |v.configs| && v.configs[i].primary != from
    ensures Lists(v, from, to, base, list) && ShiftBy(load, from, to, 0) == load
  {}

  /** The inner loop. */
  method MoveMany(v: View, ghost base: Plan, plan0: Plan, from: nat, to: nat, count: nat, list0: seq<nat>,
                  a0: DiskLoad, b0: DiskLoad, ghost load: seq<int>, ghost steps0: seq<Decision>)
    returns (plan: Plan, a: DiskLoad, b: DiskLoad, ghost list: seq<nat>, ghost steps: seq<Decision>)
    requires ValidView(v) && count <= |list0|
    requires AlongEdge(v, base, plan0, from, to, list0, a0, b0, load, 0, steps0)
    ensures AlongEdge(v, base, plan, from, to, list, a, b, load, count, steps)
  {
    var left, planMoving := list0, count;
    plan, a, b, steps := plan0, a0, b0, steps0;
    ghost var done: nat := 0;
    while planMoving > 0
      invariant 0 <= planMoving <= |left| && done + planMoving == count
      invariant AlongEdge(v, base, plan, from, to, left, a, b, load, done, steps)
    {
      plan, left, a, b, steps := MoveOne(v, base, plan, from, to, left, a, b, load, done, steps);
      planMoving, done := planMoving - 1, done + 1;
    }
    list := left;
  }

  /** Plans `count` moves along one edge of the path. */
  method MoveAlong(v: View, base: Plan, from: nat, to: nat, count: nat,
                   prevLoad0: DiskLoad, currentLoad0: DiskLoad, ghost load: seq<int>, ghost steps0: seq<Decision>)
    returns (plan: Plan, prevLoad: DiskLoad, currentLoad: DiskLoad, ghost steps: seq<Decision>)
    requires ValidView(v) && TagsKnown(v) && Collected(v, from, true)
    requires 1 <= from <= v.n && 1 <= to <= v.n && from != to
    requires forall i :: i in base ==> i < |v.configs| && v.configs[i].primary != from
    requires LoadIs(ExecutePlan(v, base), true, load)
    requires count <= Movable(v, from, to)
    requires MadeBest(v, base, from, to, prevLoad0, currentLoad0, steps0)
    ensures ExtendsBy(v, base, plan, from, to)
    ensures LoadIs(ExecutePlan(v, plan), true, ShiftBy(load, from, to, count))
    ensures MadeBest(v, plan, from, to, prevLoad, currentLoad, steps)
  {
    var list := PotentialMoving(v, from, to);
    ListIsTagged(v, from, to, map[], list);
    StartEdge(v, base, from, to, list, load);
    assert count <= |list|;
    ghost var left;
    plan, prevLoad, currentLoad, left, steps :=
      MoveMany(v, base, base, from, to, count, list, prevLoad0, currentLoad0, load, steps0);
  }

  function Less(load: DiskLoad, tag: string): DiskLoad {
    load[tag := LoadOf(load, tag) - 1]
  }

  function More(load: DiskLoad, tag: string): DiskLoad {
    load[tag := LoadOf(load, tag) + 1]
  }

  lemma ListIsTagged(v: View, from: nat, to: nat, plan: Plan, list: seq<nat>)
    requires TagsKnown(v) && Collected(v, from, true) && Lists(v, from, to, plan, list)
    ensures AllTagged(v, from, to, list)
  {
    forall k | 0 <= k < |list| ensures HasTags(v, from, to, list[k]) {
      assert list[k] in list;
    }
  }

  lemma BestOfList(v: View, plan: Plan, from: nat, to: nat, a: DiskLoad, b: DiskLoad, list: seq<nat>, k: nat)
    requires Lists(v, from, to, plan, list) && AllTagged(v, from, to, list) && TopScore(v, from, to, a, b, list, |list|, k)
    ensures BestMove(v, plan, from, to, a, b, list[k])
  {
    assert list[k] in list;
    forall j: nat | Tagged(v, from, to, j) && j !in plan
      ensures Score(v, from, to, a, b, j) <= Score(v, from, to, a, b, list[k])
      ensures j < list[k] ==> Score(v, from, to, a, b, j) < Score(v, from, to, a, b, list[k])
    {
      assert j in list;
      var m :| 0 <= m < |list| && list[m] == j;
      assert k < m ==> list[k] < list[m];
    }
  }

  lemma DropPlanned(v: View, from: nat, to: nat, plan: Plan, list: seq<nat>, k: nat)
    requires Lists(v, from, to, plan, list) && k < |list|
    ensures Lists(v, from, to, plan[list[k] := Request.MovePrimary(from, to)], list[..k] + list[k + 1..])
  {
    var rest, plan' := list[..k] + list[k + 1..], plan[list[k] := Request.MovePrimary(from, to)];
    forall i ensures i in rest <==> i in list && i != list[k] {
      if i in list && i != list[k] {
        var m :| 0 <= m < |list| && list[m] == i;
        assert rest[if m < k then m else m - 1] == i;
      }
    }
    assert list[k] in list;
  }

  /** The disk loads of both ends follow a move. */
  lemma DiskAfterMove(v: View, plan: Plan, from: nat, to: nat, i: nat, s: nat, tag: string)
    requires ValidView(v) && Tagged(v, from, to, i) && i !in plan && from != to
    ensures DiskReplicas(ExecutePlan(v, plan[i := Request.MovePrimary(from, to)]), s, true, tag)
            + (if s == from && v.configs[i].disk[from] == tag then 1 else 0)
            == DiskReplicas(ExecutePlan(v, plan), s, true, tag)
            + if s == to && v.configs[i].disk[to] == tag then 1 else 0
  {
    var r := Request.MovePrimary(from, to);
    ExecuteOneMore(v, plan, i, r);
    RequestRuns(v.configs[i], r, v.n);
    var c, d := v.configs[i], Executed(v.configs[i], r, v.n);
    CountUpdate(ExecutePlan(v, plan).configs, i, d, OnDisk(s, true, tag));
  }

  lemma DisksAfterMove(v: View, plan: Plan, from: nat, to: nat, a: DiskLoad, b: DiskLoad, i: nat)
    requires ValidView(v) && Tagged(v, from, to, i) && i !in plan && from != to
    requires DiskAgrees(ExecutePlan(v, plan), from, a) && DiskAgrees(ExecutePlan(v, plan), to, b)
    ensures var w := ExecutePlan(v, plan[i := Request.MovePrimary(from, to)]);
            DiskAgrees(w, from, Less(a, v.configs[i].disk[from])) && DiskAgrees(w, to, More(b, v.configs[i].disk[to]))
  {
    var w := ExecutePlan(v, plan[i := Request.MovePrimary(from, to)]);
    var a', b' := Less(a, v.configs[i].disk[from]), More(b, v.configs[i].disk[to]);
    forall tag: string
      ensures LoadOf(a', tag) == DiskReplicas(w, from, true, tag) && LoadOf(b', tag) == DiskReplicas(w, to, true, tag)
    {
      DiskAfterMove(v, plan, from, to, i, from, tag);
      DiskAfterMove(v, plan, from, to, i, to, tag);
      assert LoadOf(a, tag) == DiskReplicas(ExecutePlan(v, plan), from, true, tag);
      assert LoadOf(b, tag) == DiskReplicas(ExecutePlan(v, plan), to, true, tag);
    }
  }

  lemma BestOneMore(v: View, plan: Plan, from: nat, to: nat, a: DiskLoad, b: DiskLoad, steps: seq<Decision>,
                    list: seq<nat>, k: nat)
    requires ValidView(v) && from != to && MadeBest(v, plan, from, to, a, b, steps)
    requires Lists(v, from, to, plan, list) && AllTagged(v, from, to, list) && TopScore(v, from, to, a, b, list, |list|, k)
    ensures var i, r := list[k], Request.MovePrimary(from, to);
            MadeBest(v, plan[i := r], from, to, Less(a, v.configs[i].disk[from]), More(b, v.configs[i].disk[to]),
                     steps + [Decision(i, r)])
  {
    var d := Decision(list[k], Request.MovePrimary(from, to));
    BestOfList(v, plan, from, to, a, b, list, k);
    assert GreedyMove(v, plan, d);
    GreedyMovesOneMore(v, steps, d);
    DisksAfterMove(v, plan, from, to, a, b, d.i);
  }

  lemma UntouchedConfig(v: View, plan: Plan, p: seq<nat>, k: nat, i: nat)
    requires ValidView(v) && 1 < k < |p| && Simple(p) && FollowsPath(v, plan, p, k) && i < |v.configs|
    ensures var c, d := v.configs[i], ExecutePlan(v, plan).configs[i];
            (c.primary == p[k - 1] <==> d.primary == p[k - 1]) && c.disk == d.disk
  {
    if i in plan {
      assert OnPath(v, p, k, i, plan[i]);
      var j: nat :| MovesEdge(v, p, k, i, plan[i], j);
      RequestRuns(v.configs[i], plan[i], v.n);
    }
  }

  /** A server that no planned move touches keeps its disk loads. */
  lemma UntouchedDisk(v: View, plan: Plan, p: seq<nat>, k: nat, load: DiskLoad)
    requires ValidView(v) && 1 < k < |p| && Simple(p) && FollowsPath(v, plan, p, k) && DiskAgrees(v, p[k - 1], load)
    ensures DiskAgrees(ExecutePlan(v, plan), p[k - 1], load)
  {
    var w, s := ExecutePlan(v, plan), p[k - 1];
    forall tag: string ensures LoadOf(load, tag) == DiskReplicas(w, s, true, tag) {
      forall i | 0 <= i < |v.configs|
        ensures Holds(OnDisk(s, true, tag), v.configs[i]) == Holds(OnDisk(s, true, tag), w.configs[i])
      {
        UntouchedConfig(v, plan, p, k, i);
      }
      CountSame(v.configs, w.configs, OnDisk(s, true, tag));
      assert LoadOf(load, tag) == DiskReplicas(v, s, true, tag);
    }
  }

  lemma ExtendsOneMore(v: View, base: Plan, plan: Plan, from: nat, to: nat, i: nat)
    requires CanMove(v, from, to, i) && i !in plan && ExtendsBy(v, base, plan, from, to)
    ensures ExtendsBy(v, base, plan[i := Request.MovePrimary(from, to)], from, to)
  {}

  lemma MoveOneMore(v: View, base: Plan, plan: Plan, from: nat, to: nat, list: seq<nat>, k: nat, load: seq<int>, done: nat)
    requires ValidView(v) && Lists(v, from, to, plan, list) && k < |list| && ExtendsBy(v, base, plan, from, to)
    requires 1 <= from <= v.n && 1 <= to <= v.n && from != to && |load| == v.n + 2
    requires LoadIs(ExecutePlan(v, plan), true, ShiftBy(load, from, to, done))
    ensures var plan' := plan[list[k] := Request.MovePrimary(from, to)];
            && ExtendsBy(v, base, plan', from, to) && Lists(v, from, to, plan', list[..k] + list[k + 1..])
            && LoadIs(ExecutePlan(v, plan'), true, ShiftBy(load, from, to, done + 1))
  {
    var i, r := list[k], Request.MovePrimary(from, to);
    assert i in list;
    ExtendsOneMore(v, base, plan, from, to, i);
    DropPlanned(v, from, to, plan, list, k);
    ShiftStep(load, from, to, done);
    assert LoadIs(ExecutePlan(v, plan[i := r]), true, Shifted(ShiftBy(load, from, to, done), from, to)) by {
      LoadOneMore(v, true, plan, i, r, ShiftBy(load, from, to, done));
    }
  }

  lemma ShiftStep(load: seq<int>, from: nat, to: nat, done: nat)
    requires from < |load| && to < |load| && from != to
    ensures Shifted(ShiftBy(load, from, to, done), from, to) == ShiftBy(load, from, to, done + 1)
  {}

  ghost predicate MovesEdge(v: View, p: seq<nat>, k: nat, i: nat, r: Request, j: nat) {
    k <= j && j + 2 < |p| && CanMove(v, p[j], p[j + 1], i) && r == Request.MovePrimary(p[j], p[j + 1])
  }

  ghost predicate OnPath(v: View, p: seq<nat>, k: nat, i: nat, r: Request) {
    exists j: nat :: MovesEdge(v, p, k, i, r, j)
  }

  /** Every planned move follows one edge of the path behind position `k`. */
  ghost predicate FollowsPath(v: View, plan: Plan, p: seq<nat>, k: nat) {
    forall i :: i in plan ==> OnPath(v, p, k, i, plan[i])
  }

  lemma FollowsOneMore(v: View, base: Plan, plan: Plan, p: seq<nat>, k: nat)
    requires 1 < k && k + 1 < |p| && FollowsPath(v, base, p, k) && ExtendsBy(v, base, plan, p[k - 1], p[k])
    ensures FollowsPath(v, plan, p, k - 1)
  {
    forall i | i in plan ensures OnPath(v, p, k - 1, i, plan[i]) {
      if i in base {
        var j: nat :| MovesEdge(v, p, k, i, base[i], j);
        assert MovesEdge(v, p, k - 1, i, plan[i], j);
      } else {
        assert MovesEdge(v, p, k - 1, i, plan[i], k - 1);
      }
    }
  }

  lemma FollowsElsewhere(v: View, plan: Plan, p: seq<nat>, k: nat)
    requires 1 < k < |p| && Simple(p) && FollowsPath(v, plan, p, k)
    ensures forall i :: i in plan ==> i < |v.configs| && v.configs[i].primary != p[k - 1]
  {}

  /** Only the two ends of the path change: the first loses `f` primaries and stays at the target or
      above, the last gains them and stays at the target or below. */
  ghost predicate FlowMoved(v: View, t: int, plan: Plan, a: nat, b: nat, f: int) {
    && 1 <= a <= v.n && 1 <= b <= v.n && a != b && f > 0
    && Primaries(v, a) - f >= t >= Primaries(v, b) + f
    && forall s :: 1 <= s <= v.n ==>
         Primaries(ExecutePlan(v, plan), s)
         == Primaries(v, s) - (if s == a then f else 0) + (if s == b then f else 0)
  }

  /** A round of moves strictly lowers the sum of squared primary counts. */
  lemma FlowNarrows(v: View, t: int, plan: Plan, a: nat, b: nat, f: int)
    requires ValidView(v) && FlowMoved(v, t, plan, a, b, f)
    ensures Spread(ExecutePlan(v, plan), true, v.n) < Spread(v, true, v.n)
  {
    var w := ExecutePlan(v, plan);
    var load := SomeLoad(v);
    var load' := load[a := load[a] - f][b := load[b] + f];
    SpreadIsSquares(v, true, load, v.n);
    assert LoadIs(w, true, load');
    SpreadIsSquares(w, true, load', v.n);
    ShiftLowersSquares(load, v.n, a, b, f);
  }

  lemma SomeLoad(v: View) returns (load: seq<int>)
    ensures LoadIs(v, true, load)
  {
    load := seq(v.n + 2, s requires 0 <= s => Amount(v, true, s));
  }

  lemma NothingMovedYet(v: View, load: seq<int>, a: nat, f: int)
    requires LoadIs(v, true, load) && a < |load|
    ensures LoadIs(ExecutePlan(v, map[]), true, ShiftBy(load, a, a, f))
  {
    ExecuteNothing(v);
  }

  /** One more edge: what arrives at `b` leaves `c` instead of `b`. */
  lemma ShiftChain(load: seq<int>, a: nat, b: nat, c: nat, f: int)
    requires a < |load| && b < |load| && c < |load|
    ensures ShiftBy(ShiftBy(load, b, c, f), a, b, f) == ShiftBy(load, a, c, f)
  {}

  /** An augmenting path for `f` primaries, seen from the servers: they can move along every edge, the first server can
      spare them and the last one lacks them. */
  ghost predicate Augments(v: View, t: int, p: seq<nat>, f: int) {
    && |p| >= 4 && Simple(p) && p[0] == 0 && p[|p| - 1] == v.n + 1 && f > 0
    && (forall k :: 0 < k < |p| - 1 ==> 1 <= p[k] <= v.n)
    && (forall k :: 1 < k < |p| - 1 ==> f <= Movable(v, p[k - 1], p[k]))
    && Primaries(v, p[1]) - t >= f && t - Primaries(v, p[|p| - 2]) >= f
  }

  /** The path found by the search. */
  ghost predicate FlowPath(v: View, t: int, p: seq<nat>, prev: seq<int>, f: int) {
    && |prev| == v.n + 2 && Augments(v, t, p, f)
    && (forall k :: 0 < k < |p| ==> prev[p[k]] == p[k - 1])
  }

  /** A walk is as wide as its narrowest edge. */
  lemma {:induction false} WidthAtLeast(net: Network, p: seq<nat>, f: int)
    requires ValidNetwork(net) && Walk(net, p) && f <= INT_MAX
    requires forall k :: 0 < k < |p| ==> f <= net[p[k - 1]][p[k]]
    ensures Width(net, p) >= f
  {
    if |p| > 1 {
      WidthAtLeast(net, p[..|p| - 1], f);
    }
  }

  /** An augmenting path of the servers is one of the network. */
  lemma AugmentsIsPath(v: View, t: int, net: Network, p: seq<nat>, f: int)
    requires ValidView(v) && IsNetwork(v, t, net) && ValidNetwork(net) && Augments(v, t, p, f)
    ensures PathTo(net, p, v.n + 1) && Width(net, p) >= f
  {
    forall k | 0 < k < |p| ensures f <= net[p[k - 1]][p[k]] {
      assert net[p[k - 1]][p[k]] == Capacity(v, t, p[k - 1], p[k]);
    }
    WidthAtLeast(net, p, f);
  }

  lemma PathIsFlowPath(v: View, t: int, net: Network, p: seq<nat>, prev: seq<int>)
    requires ValidView(v) && IsNetwork(v, t, net) && ValidNetwork(net)
    requires PathTo(net, p, v.n + 1) && Simple(p) && Width(net, p) > 0
    requires |prev| == v.n + 2 && TracedBy(p, prev)
    ensures FlowPath(v, t, p, prev, Width(net, p))
  {
    PathShape(v, t, net, p);
    forall k | 0 < k < |p| ensures Width(net, p) <= net[p[k - 1]][p[k]] {
      EdgeAtLeastWidth(net, p, k);
    }
  }

  lemma FoundFlowPath(v: View, t: int, net: Network, s: Labels) returns (p: seq<nat>)
    requires ValidView(v) && IsNetwork(v, t, net) && ValidNetwork(net)
    requires WidestPathFound(net, s) && s.visit[v.n + 1]
    ensures FlowPath(v, t, p, s.prev, s.flow[v.n + 1])
  {
    p :| PathTo(net, p, v.n + 1) && Simple(p) && TracedBy(p, s.prev) && Width(net, p) == s.flow[v.n + 1];
    PathIsFlowPath(v, t, net, p, s.prev);
  }

  /** State of the walk at position `k` of the path: so far `f` primaries have been planned to leave
      p[k] and to reach the last server. */
  ghost predicate Moving(v: View, plan: Plan, p: seq<nat>, k: nat, f: int, load: seq<int>) {
    && 0 < k < |p| - 1 && |load| == v.n + 2 && p[k] < v.n + 2 && p[|p| - 2] < v.n + 2
    && FollowsPath(v, plan, p, k)
    && LoadIs(ExecutePlan(v, plan), true, ShiftBy(load, p[k], p[|p| - 2], f))
  }

  method MoveEdge(v: View, base: Plan, from: nat, to: nat, f: nat, prevLoad0: DiskLoad, currentLoad0: DiskLoad,
                  ghost t: int, ghost prev: seq<int>, ghost p: seq<nat>, ghost k: nat,
                  ghost load: seq<int>, ghost steps0: seq<Decision>)
    returns (plan: Plan, prevLoad: DiskLoad, currentLoad: DiskLoad, ghost steps: seq<Decision>)
    requires ValidView(v) && TagsKnown(v) && FlowPath(v, t, p, prev, f) && Moving(v, base, p, k, f, load)
    requires k > 1 && from == p[k - 1] && to == p[k] && Collected(v, from, true)
    requires DiskAgrees(v, from, prevLoad0) && DiskAgrees(ExecutePlan(v, base), to, currentLoad0)
    requires base == PlanOf(steps0) && GreedyMoves(v, steps0)
    ensures Moving(v, plan, p, k - 1, f, load)
    ensures DiskAgrees(ExecutePlan(v, plan), from, prevLoad)
    ensures plan == PlanOf(steps) && GreedyMoves(v, steps)
  {
    FollowsElsewhere(v, base, p, k);
    ShiftChain(load, from, to, p[|p| - 2], f);
    UntouchedDisk(v, base, p, k, prevLoad0);
    plan, prevLoad, currentLoad, steps :=
      MoveAlong(v, base, from, to, f, prevLoad0, currentLoad0, ShiftBy(load, to, p[|p| - 2], f), steps0);
    FollowsOneMore(v, base, plan, p, k);
  }

  lemma WalkDone(v: View, t: int, prev: seq<int>, plan: Plan, p: seq<nat>, f: int, load: seq<int>)
    requires FlowPath(v, t, p, prev, f) && Moving(v, plan, p, 1, f, load) && LoadIs(v, true, load)
    ensures FlowMoved(v, t, plan, p[1], p[|p| - 2], f)
  {
    var w := ExecutePlan(v, plan);
    forall s | 1 <= s <= v.n
      ensures Primaries(w, s)
              == Primaries(v, s) - (if s == p[1] then f else 0) + (if s == p[|p| - 2] then f else 0)
    {
      assert Amount(w, true, s) == ShiftBy(load, p[1], p[|p| - 2], f)[s];
      assert Amount(v, true, s) == load[s];
    }
  }

  /** Fails without a plan when replica infos are missing. Otherwise every move goes from a primary to
      one of its secondaries along the path, no partition is moved twice, and FlowMoved holds. Each move has the
      best disk score, by the disk loads of the moves before it. */
  method MovePrimaryBasedOnFlow(v: View, ghost t: int, prev: seq<int>, flow: seq<int>, ghost p: seq<nat>)
    returns (ok: bool, plan: Plan, ghost steps: seq<Decision>)
    requires ValidView(v) && TagsKnown(v)
    requires |flow| == v.n + 2 && FlowPath(v, t, p, prev, flow[v.n + 1])
    ensures ok <==> forall k :: 0 < k < |p| - 1 ==> Collected(v, p[k], true)
    ensures !ok ==> plan == map[]
    ensures ok ==> FollowsPath(v, plan, p, 1) && FlowMoved(v, t, plan, p[1], p[|p| - 2], flow[v.n + 1])
    ensures ok ==> plan == PlanOf(steps) && GreedyMoves(v, steps)
  {
    var f := flow[|prev| - 1];
    ghost var k: nat := |p| - 2;
    assert prev[p[k + 1]] == p[k];
    var current := prev[|prev| - 1];
    ghost var load := SomeLoad(v);
    NothingMovedYet(v, load, current, f);
    plan, steps := map[], [];
    var currentLoad;
    ok, currentLoad := CalcDiskLoad(v, current, true);
    if !ok {
      return;
    }
    ExecuteNothing(v);
    while prev[current] != 0
      invariant Moving(v, plan, p, k, f, load) && current == p[k]
      invariant ok && forall j :: k <= j < |p| - 1 ==> Collected(v, p[j], true)
      invariant DiskAgrees(ExecutePlan(v, plan), current, currentLoad) && plan == PlanOf(steps) && GreedyMoves(v, steps)
      decreases k
    {
      assert prev[p[k]] == p[k - 1];
      var from := prev[current];
      var prevLoad;
      ok, prevLoad := CalcDiskLoad(v, from, true);
      if !ok {
        return false, map[], [];
      }
      plan, prevLoad, currentLoad, steps :=
        MoveEdge(v, plan, from, current, f, prevLoad, currentLoad, t, prev, p, k, load, steps);
      current, currentLoad := from, prevLoad;
      k := k - 1;
    }
    assert k == 1 by {
      assert prev[p[k]] == p[k - 1] && p[0] == 0;
    }
    WalkDone(v, t, prev, plan, p, f, load);
  }
}
