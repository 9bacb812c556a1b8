/** copy_secondary_per_app: copy secondaries from the servers with most to those with fewest replicas. */
module CopySecondary {
  import opened Counting
  import opened Options
  import opened Cluster
  import opened CopyPrimary

  /** A secondary of `from` that can be copied to `to` and is in no request yet: neither in the plan nor
      in an earlier request of the same balancer run. */
  ghost predicate Copyable(v: View, used: set<nat>, plan: Plan, from: nat, to: nat, i: nat) {
    && i < |v.configs| && i !in used && i !in plan
    && from in v.configs[i].secondaries && !IsMember(v.configs[i], to)
  }

  ghost predicate SecondaryOnFullestDisk(v: View, used: set<nat>, plan: Plan, from: nat, to: nat, load: DiskLoad, i: nat) {
    && Copyable(v, used, plan, from, to, i) && from in v.configs[i].disk
    && forall j: nat :: Copyable(v, used, plan, from, to, j) && from in v.configs[j].disk ==>
         if j < i
         then LoadOf(load, v.configs[j].disk[from]) < LoadOf(load, v.configs[i].disk[from])
         else LoadOf(load, v.configs[j].disk[from]) <= LoadOf(load, v.configs[i].disk[from])
  }

  method SelectSecondary(v: View, used: set<nat>, plan: Plan, from: nat, to: nat, load: DiskLoad)
    returns (selected: Option<nat>)
    requires ValidView(v) && Collected(v, from, false)
    ensures selected.None? <==> forall i: nat :: !Copyable(v, used, plan, from, to, i)
    ensures selected.Some? ==> SecondaryOnFullestDisk(v, used, plan, from, to, load, selected.value)
  {
    selected := None;
    for i := 0 to |v.configs|
      invariant selected.None? <==> forall j: nat :: j < i ==> !Copyable(v, used, plan, from, to, j)
      invariant selected.Some? ==>
                  && selected.value < i && Copyable(v, used, plan, from, to, selected.value)
                  && from in v.configs[selected.value].disk
                  && forall j: nat :: j < i && Copyable(v, used, plan, from, to, j) && from in v.configs[j].disk ==>
                       if j < selected.value
                       then LoadOf(load, v.configs[j].disk[from])
                            < LoadOf(load, v.configs[selected.value].disk[from])
                       else LoadOf(load, v.configs[j].disk[from])
                            <= LoadOf(load, v.configs[selected.value].disk[from])
    {
      var c := v.configs[i];
      if IsMember(c, from) && c.primary != from && i !in used && i !in plan && !IsMember(c, to) {
        assert Copyable(v, used, plan, from, to, i) && from in v.configs[i].disk;
        if selected.None? || LoadOf(load, v.configs[selected.value].disk[from]) < LoadOf(load, c.disk[from]) {
          selected := Some(i);
        }
      }
    }
  }

  // ---- loads ----------------------------------------------------------------------------------

  /** A server that has gained replicas: at most one above `low`, and then no queued server is below it. */
  ghost predicate GainedOk(low: int, q: set<nat>, future: seq<int>, s: nat)
    requires s < |future| && forall j :: j in q ==> j < |future|
  {
    future[s] <= low || (future[s] == low + 1 && forall j :: j in q ==> future[j] >= low)
  }

  /** A server that has lost replicas: still above `low`, or at `low` with no queued server above low + 1. */
  ghost predicate LostOk(low: int, q: set<nat>, future: seq<int>, s: nat)
    requires s < |future| && forall j :: j in q ==> j < |future|
  {
    future[s] > low || (future[s] == low && forall j :: j in q ==> future[j] <= low + 1)
  }

  /** The loads part of the loop invariant; `was` are the replica counts at the start. */
  ghost predicate LoadsOk(n: nat, low: int, q: set<nat>, was: seq<int>, future: seq<int>) {
    && |was| == |future| == n + 2 && q <= Servers(n)
    && n * low <= Total(future, n) == Total(was, n) < n * (low + 1)
    && (forall s :: s in Servers(n) && s !in q ==> future[s] > low)
    && (forall s :: s in Servers(n) && future[s] > was[s] ==> GainedOk(low, q, future, s))
    && (forall s :: s in Servers(n) && future[s] < was[s] ==> LostOk(low, q, future, s))
  }

  /** The dassert of the loop: servers dropped from the queue are above the average, so the first queued
      server is not. */
  lemma MinAtMostLow(n: nat, low: int, q: set<nat>, was: seq<int>, future: seq<int>, first: nat)
    requires LoadsOk(n, low, q, was, future) && IsFirst(future, q, first)
    ensures future[first] <= low
  {
    var s := SomeBelow(future, n, low + 1);
    assert s in Servers(n);
  }

  /** The loop goes on only while the ends are two apart; then the first has not lost and the last has not
      gained a replica, and shifting one keeps the invariant. */
  lemma ShiftKeepsLoads(n: nat, low: int, q: set<nat>, was: seq<int>, future: seq<int>, first: nat, last: nat)
    requires LoadsOk(n, low, q, was, future) && IsFirst(future, q, first) && IsLast(future, q, last)
    requires future[first] <= low < future[last] && future[last] - future[first] > 1
    ensures was[first] <= future[first] && future[last] <= was[last]
    ensures LoadsOk(n, low, q, was, Shifted(future, last, first))
    ensures Squares(Shifted(future, last, first), n) < Squares(future, n)
  {
    assert first in Servers(n) && last in Servers(n);
    var next := Shifted(future, last, first);
    ShiftLowersSquares(future, n, last, first, 1);
    forall s | s in Servers(n) && next[s] > was[s] ensures GainedOk(low, q, next, s) {
      assert future[s] > was[s] ==> GainedOk(low, q, future, s);
    }
    forall s | s in Servers(n) && next[s] < was[s] ensures LostOk(low, q, next, s) {
      assert future[s] < was[s] ==> LostOk(low, q, future, s);
    }
  }

  lemma DropKeepsLoads(n: nat, low: int, q: set<nat>, was: seq<int>, future: seq<int>, last: nat)
    requires LoadsOk(n, low, q, was, future) && last in q && future[last] > low
    ensures LoadsOk(n, low, q - {last}, was, future)
  {}

  // ---- plans ----------------------------------------------------------------------------------

  /** Every source has lost and every target has gained replicas, so no server is both. */
  ghost predicate OneWaySecondaries(v: View, used: set<nat>, plan: Plan, was: seq<int>, future: seq<int>)
    requires |was| == |future| == v.n + 2
  {
    forall i :: i in plan ==>
      && plan[i].CopySecondary? && i !in used && plan[i].from < v.n + 2 && plan[i].to < v.n + 2
      && future[plan[i].from] < was[plan[i].from] && future[plan[i].to] > was[plan[i].to]
  }

  /** There is a server at most at `low` to which none of the secondaries of s can be copied. */
  ghost predicate Blocked(v: View, used: set<nat>, low: int, plan: Plan, s: nat) {
    exists to :: BlockedBy(v, used, low, plan, s, to)
  }

  ghost predicate BlockedBy(v: View, used: set<nat>, low: int, plan: Plan, s: nat, to: nat) {
    1 <= to <= v.n && to != s && Replicas(v, to) <= low && NothingCopyable(v, used, plan, s, to)
  }

  ghost predicate NothingCopyable(v: View, used: set<nat>, plan: Plan, s: nat, to: nat) {
    forall i: nat :: !Copyable(v, used, plan, s, to, i)
  }

  ghost predicate ReplicasOnDiskAre(w: View, s: nat, load: DiskLoad) {
    forall tag :: LoadOf(load, tag) == DiskReplicas(w, s, false, tag)
  }

  /** The disk loads of every server that has gained nothing are those of the planned state. */
  ghost predicate ReplicaDisksAgree(v: View, plan: Plan, was: seq<int>, future: seq<int>, loads: seq<DiskLoad>)
    requires |was| == |future| == |loads| == v.n + 2
  {
    forall s :: 1 <= s <= v.n && future[s] <= was[s] ==> ReplicasOnDiskAre(ExecutePlan(v, plan), s, loads[s])
  }

  /** One turn of the loop: a secondary is copied, or the last server of the queue is given up. */
  datatype Turn = Copied(d: Decision) | GivenUp(server: nat)

  function QueueAfter(n: nat, turns: seq<Turn>): set<nat> {
    if turns == [] then Servers(n)
    else
      var k := |turns| - 1;
      QueueAfter(n, turns[..k]) - if turns[k].GivenUp? then {turns[k].server} else {}
  }

  function PlanAfter(turns: seq<Turn>): Plan {
    if turns == [] then map[]
    else
      var k := |turns| - 1;
      if turns[k].GivenUp? then PlanAfter(turns[..k]) else PlanAfter(turns[..k])[turns[k].d.i := turns[k].d.request]
  }

  /** `first` and `last` are the ends of the queue in the state that the plan leads to. */
  ghost predicate QueueEnds(v: View, plan: Plan, q: set<nat>, load: seq<int>, first: nat, last: nat) {
    && q <= Servers(v.n) && LoadIs(ExecutePlan(v, plan), false, load)
    && IsFirst(load, q, first) && IsLast(load, q, last)
  }

  /** The loop goes on: the last server is above `low` and two or more above the first. */
  ghost predicate GoesOn(v: View, low: int, plan: Plan, q: set<nat>, first: nat, last: nat) {
    exists load :: QueueEnds(v, plan, q, load, first, last) && load[last] > low && load[last] - load[first] > 1
  }

  /** What a turn may do with this queue: copy, from its last to its first server, the first secondary on a disk
      of the planned state that holds most replicas; or give up the last server when there is none. */
  ghost predicate TurnOk(v: View, used: set<nat>, low: int, plan: Plan, q: set<nat>, t: Turn) {
    match t
    case Copied(d) =>
      && d.request.CopySecondary? && GoesOn(v, low, plan, q, d.request.to, d.request.from)
      && exists disks :: ReplicasOnDiskAre(ExecutePlan(v, plan), d.request.from, disks)
                         && SecondaryOnFullestDisk(v, used, plan, d.request.from, d.request.to, disks, d.i)
    case GivenUp(s) =>
      exists first :: GoesOn(v, low, plan, q, first, s) && NothingCopyable(v, used, plan, s, first)
  }

  ghost predicate Turns(v: View, used: set<nat>, low: int, turns: seq<Turn>) {
    turns == [] || (var k := |turns| - 1;
                    Turns(v, used, low, turns[..k])
                    && TurnOk(v, used, low, PlanAfter(turns[..k]), QueueAfter(v.n, turns[..k]), turns[k]))
  }

  lemma TurnsOneMore(v: View, used: set<nat>, low: int, turns: seq<Turn>, t: Turn)
    requires Turns(v, used, low, turns)
    requires TurnOk(v, used, low, PlanAfter(turns), QueueAfter(v.n, turns), t)
    ensures Turns(v, used, low, turns + [t])
    ensures PlanAfter(turns + [t]) == if t.GivenUp? then PlanAfter(turns) else PlanAfter(turns)[t.d.i := t.d.request]
    ensures QueueAfter(v.n, turns + [t]) == QueueAfter(v.n, turns) - if t.GivenUp? then {t.server} else {}
  {
    assert (turns + [t])[..|turns|] == turns;
  }

  ghost predicate Planned(v: View, used: set<nat>, low: int, plan: Plan, q: set<nat>, was: seq<int>, future: seq<int>) {
    && ValidPlan(v, plan)
    && LoadIs(v, false, was) && LoadIs(ExecutePlan(v, plan), false, future)
    && OneWaySecondaries(v, used, plan, was, future)
    && (forall s :: s in Servers(v.n) && s !in q ==> Blocked(v, used, low, plan, s))
    && Squares(future, v.n) <= Squares(was, v.n)
  }

  lemma BlockedStays(v: View, used: set<nat>, low: int, plan: Plan, i: nat, r: Request, s: nat)
    requires Blocked(v, used, low, plan, s)
    ensures Blocked(v, used, low, plan[i := r], s)
  {
    var to :| BlockedBy(v, used, low, plan, s, to);
    var plan' := plan[i := r];
    forall k: nat ensures !Copyable(v, used, plan', s, to, k) {
      assert !Copyable(v, used, plan, s, to, k);
    }
    assert BlockedBy(v, used, low, plan', s, to);
  }

  lemma OneWayOneMore(v: View, used: set<nat>, plan: Plan, i: nat, r: Request, was: seq<int>, future: seq<int>)
    requires |was| == |future| == v.n + 2 && OneWaySecondaries(v, used, plan, was, future)
    requires r.CopySecondary? && i !in used && 1 <= r.from <= v.n && 1 <= r.to <= v.n && r.from != r.to
    requires was[r.to] <= future[r.to] && future[r.from] <= was[r.from]
    ensures OneWaySecondaries(v, used, plan[i := r], was, Shifted(future, r.from, r.to))
  {}

  lemma PlannedOneMore(v: View, used: set<nat>, low: int, plan: Plan, q: set<nat>, was: seq<int>, future: seq<int>,
                       i: nat, r: Request)
    requires ValidView(v) && Planned(v, used, low, plan, q, was, future)
    requires r.CopySecondary? && 1 <= r.to <= v.n && Copyable(v, used, plan, r.from, r.to, i)
    requires 1 <= r.from <= v.n && r.from != r.to && was[r.to] <= future[r.to] && future[r.from] <= was[r.from]
    requires Squares(Shifted(future, r.from, r.to), v.n) <= Squares(future, v.n)
    ensures Planned(v, used, low, plan[i := r], q, was, Shifted(future, r.from, r.to))
  {
    assert ValidPlan(v, plan[i := r]);
    assert LoadIs(ExecutePlan(v, plan[i := r]), false, Shifted(future, r.from, r.to)) by {
      LoadOneMore(v, false, plan, i, r, future);
    }
    OneWayOneMore(v, used, plan, i, r, was, future);
    AllBlockedStay(v, used, low, plan, i, r, q);
  }

  lemma AllBlockedStay(v: View, used: set<nat>, low: int, plan: Plan, i: nat, r: Request, q: set<nat>)
    requires forall s :: s in Servers(v.n) && s !in q ==> Blocked(v, used, low, plan, s)
    ensures forall s :: s in Servers(v.n) && s !in q ==> Blocked(v, used, low, plan[i := r], s)
  {
    forall s | s in Servers(v.n) && s !in q ensures Blocked(v, used, low, plan[i := r], s) {
      BlockedStays(v, used, low, plan, i, r, s);
    }
  }

  lemma ReplicaDiskOneMore(v: View, plan: Plan, i: nat, r: Request, s: nat, load: DiskLoad)
    requires ValidView(v) && ReplicasOnDiskAre(ExecutePlan(v, plan), s, load)
    requires i < |v.configs| && i !in plan && RequestValid(v.configs[i], r, v.n) && r.CopySecondary? && s != r.to
    requires r.from in v.configs[i].disk
    ensures var tag := v.configs[i].disk[r.from];
            ReplicasOnDiskAre(ExecutePlan(v, plan[i := r]), s,
                              if s == r.from then load[tag := LoadOf(load, tag) - 1] else load)
  {
    var w, tag0 := ExecutePlan(v, plan[i := r]), v.configs[i].disk[r.from];
    var load' := if s == r.from then load[tag0 := LoadOf(load, tag0) - 1] else load;
    forall tag: string ensures LoadOf(load', tag) == DiskReplicas(w, s, false, tag) {
      DiskReplicasOneMore(v, plan, i, r, s, tag);
      assert LoadOf(load, tag) == DiskReplicas(ExecutePlan(v, plan), s, false, tag);
    }
  }

  lemma DiskReplicasOneMore(v: View, plan: Plan, i: nat, r: Request, s: nat, tag: string)
    requires ValidView(v) && i < |v.configs| && i !in plan
    requires RequestValid(v.configs[i], r, v.n) && r.CopySecondary? && s != r.to && r.from in v.configs[i].disk
    ensures DiskReplicas(ExecutePlan(v, plan[i := r]), s, false, tag)
            + (if s == r.from && v.configs[i].disk[r.from] == tag then 1 else 0)
            == DiskReplicas(ExecutePlan(v, plan), s, false, tag)
  {
    ExecuteOneMore(v, plan, i, r);
    RequestRuns(v.configs[i], r, v.n);
    var c, d := v.configs[i], Executed(v.configs[i], r, v.n);
    assert ServedBy(d, s, false) <==> IsMember(d, s);
    assert ServedBy(c, s, false) <==> IsMember(c, s);
    CountUpdate(ExecutePlan(v, plan).configs, i, d, OnDisk(s, false, tag));
  }

  lemma ReplicaDisksOneMore(v: View, plan: Plan, was: seq<int>, future: seq<int>, loads: seq<DiskLoad>, i: nat, r: Request)
    requires ValidView(v) && |was| == |future| == |loads| == v.n + 2
    requires ReplicaDisksAgree(v, plan, was, future, loads)
    requires i < |v.configs| && i !in plan && RequestValid(v.configs[i], r, v.n) && r.CopySecondary?
    requires 1 <= r.from <= v.n && 1 <= r.to <= v.n && r.from != r.to && r.from in v.configs[i].disk
    requires was[r.to] <= future[r.to] && future[r.from] <= was[r.from]
    ensures var tag := v.configs[i].disk[r.from];
            ReplicaDisksAgree(v, plan[i := r], was, Shifted(future, r.from, r.to), TakeFromDisk(loads, r.from, tag))
  {
    forall s | 1 <= s <= v.n && s != r.to && future[s] <= was[s]
      ensures var tag := v.configs[i].disk[r.from];
              ReplicasOnDiskAre(ExecutePlan(v, plan[i := r]), s,
                                if s == r.from then loads[s][tag := LoadOf(loads[s], tag) - 1] else loads[s])
    {
      ReplicaDiskOneMore(v, plan, i, r, s, loads[s]);
    }
  }

  /** The disk loads are those of the planned state, and the plan and the queue come from the turns so far. */
  ghost predicate MadeGreedily(v: View, used: set<nat>, low: int, plan: Plan, q: set<nat>, was: seq<int>, future: seq<int>,
                               loads: seq<DiskLoad>, turns: seq<Turn>) {
    && |was| == |future| == |loads| == v.n + 2 && ReplicaDisksAgree(v, plan, was, future, loads)
    && plan == PlanAfter(turns) && q == QueueAfter(v.n, turns) && Turns(v, used, low, turns)
  }

  lemma CopyIsTurn(v: View, used: set<nat>, low: int, plan: Plan, q: set<nat>, future: seq<int>, load: DiskLoad,
                   i: nat, r: Request)
    requires QueueEnds(v, plan, q, future, r.to, r.from) && r.CopySecondary?
    requires future[r.from] > low && future[r.from] - future[r.to] > 1
    requires ReplicasOnDiskAre(ExecutePlan(v, plan), r.from, load)
    requires SecondaryOnFullestDisk(v, used, plan, r.from, r.to, load, i)
    ensures TurnOk(v, used, low, plan, q, Copied(Decision(i, r)))
  {}

  lemma GiveUpIsTurn(v: View, used: set<nat>, low: int, plan: Plan, q: set<nat>, future: seq<int>, first: nat, last: nat)
    requires QueueEnds(v, plan, q, future, first, last) && NothingCopyable(v, used, plan, last, first)
    requires future[last] > low && future[last] - future[first] > 1
    ensures TurnOk(v, used, low, plan, q, GivenUp(last))
  {
    assert GoesOn(v, low, plan, q, first, last);
  }

  lemma GreedilyOneMore(v: View, used: set<nat>, low: int, plan: Plan, q: set<nat>, was: seq<int>,
                        future: seq<int>, loads: seq<DiskLoad>, turns: seq<Turn>, i: nat, r: Request)
    requires ValidView(v) && MadeGreedily(v, used, low, plan, q, was, future, loads, turns)
    requires QueueEnds(v, plan, q, future, r.to, r.from) && r.CopySecondary?
    requires future[r.from] > low && future[r.from] - future[r.to] > 1
    requires 1 <= r.from <= v.n && 1 <= r.to <= v.n && r.from != r.to
    requires was[r.to] <= future[r.to] && future[r.from] <= was[r.from]
    requires SecondaryOnFullestDisk(v, used, plan, r.from, r.to, loads[r.from], i)
    ensures MadeGreedily(v, used, low, plan[i := r], q, was, Shifted(future, r.from, r.to),
                         TakeFromDisk(loads, r.from, v.configs[i].disk[r.from]), turns + [Copied(Decision(i, r))])
  {
    assert TurnOk(v, used, low, plan, q, Copied(Decision(i, r))) by {
      assert ReplicasOnDiskAre(ExecutePlan(v, plan), r.from, loads[r.from]);
      CopyIsTurn(v, used, low, plan, q, future, loads[r.from], i, r);
    }
    TurnsOneMore(v, used, low, turns, Copied(Decision(i, r)));
    ReplicaDisksOneMore(v, plan, was, future, loads, i, r);
  }

  lemma LoadsAndPlanOneMore(v: View, used: set<nat>, low: int, plan: Plan, q: set<nat>, was: seq<int>,
                            future: seq<int>, i: nat, r: Request)
    requires ValidView(v) && LoadsOk(v.n, low, q, was, future) && Planned(v, used, low, plan, q, was, future)
    requires r.CopySecondary? && IsFirst(future, q, r.to) && IsLast(future, q, r.from)
    requires future[r.to] <= low < future[r.from] && future[r.from] - future[r.to] > 1
    requires Copyable(v, used, plan, r.from, r.to, i)
    ensures 1 <= r.from <= v.n && 1 <= r.to <= v.n && RequestValid(v.configs[i], r, v.n)
    ensures was[r.to] <= future[r.to] && future[r.from] <= was[r.from]
    ensures var future' := Shifted(future, r.from, r.to);
            && LoadsOk(v.n, low, q, was, future') && Planned(v, used, low, plan[i := r], q, was, future')
            && Squares(future', v.n) < Squares(future, v.n)
  {
    assert r.from in Servers(v.n) && r.to in Servers(v.n);
    ShiftKeepsLoads(v.n, low, q, was, future, r.to, r.from);
    PlannedOneMore(v, used, low, plan, q, was, future, i, r);
  }

  /** A mean that is rounded down. */
  lemma LowIsMean(n: nat, load: seq<int>)
    requires 0 < n < |load| && Total(load, n) >= 0
    ensures n * (Total(load, n) / n) <= Total(load, n) < n * (Total(load, n) / n + 1)
  {}

  method TotalPartitions(n: nat, load: seq<int>) returns (total: int)
    requires n < |load|
    ensures total == Total(load, n)
  {
    total := 0;
    for s := 1 to n + 1
      invariant total == Total(load, s - 1)
    {
      total := total + load[s];
    }
  }

  lemma StartSecondary(v: View, used: set<nat>, was: seq<int>, loads: seq<DiskLoad>, low: int)
    requires ValidView(v) && LoadIs(v, false, was) && |loads| == v.n + 2
    requires forall s, tag :: 1 <= s <= v.n ==> LoadOf(loads[s], tag) == DiskReplicas(v, s, false, tag)
    requires v.n * low <= Total(was, v.n) < v.n * (low + 1)
    ensures LoadsOk(v.n, low, Servers(v.n), was, was) && Planned(v, used, low, map[], Servers(v.n), was, was)
    ensures MadeGreedily(v, used, low, map[], Servers(v.n), was, was, loads, [])
  {
    ExecuteNothing(v);
    forall s | 1 <= s <= v.n ensures ReplicasOnDiskAre(ExecutePlan(v, map[]), s, loads[s]) {}
  }

  /** What is left at the end: queued servers are at most `low` or within one of each other, and the rest
      are above `low` and blocked. */
  ghost predicate SecondariesSettled(v: View, used: set<nat>, plan: Plan, low: int, q: set<nat>, future: seq<int>)
    requires |future| == v.n + 2 && q <= Servers(v.n)
  {
    && (forall s :: s in Servers(v.n) && s !in q ==> future[s] > low && Blocked(v, used, low, plan, s))
    && ((forall s :: s in q ==> future[s] <= low) || forall a, b :: a in q && b in q ==> future[a] - future[b] <= 1)
  }

  lemma GiveUp(v: View, used: set<nat>, low: int, plan: Plan, q: set<nat>, was: seq<int>, future: seq<int>,
               minId: nat, maxId: nat)
    requires LoadsOk(v.n, low, q, was, future) && Planned(v, used, low, plan, q, was, future)
    requires IsFirst(future, q, minId) && IsLast(future, q, maxId) && NothingCopyable(v, used, plan, maxId, minId)
    requires future[minId] <= low < future[maxId] && future[maxId] - future[minId] > 1
    ensures LoadsOk(v.n, low, q - {maxId}, was, future) && Planned(v, used, low, plan, q - {maxId}, was, future)
  {
    ShiftKeepsLoads(v.n, low, q, was, future, minId, maxId);
    DropKeepsLoads(v.n, low, q, was, future, maxId);
    assert BlockedBy(v, used, low, plan, maxId, minId) by {
      assert minId in Servers(v.n) && was[minId] == Amount(v, false, minId);
    }
  }

  lemma Settle(v: View, used: set<nat>, low: int, plan: Plan, q: set<nat>, was: seq<int>, future: seq<int>,
               minId: nat, maxId: nat)
    requires LoadsOk(v.n, low, q, was, future) && Planned(v, used, low, plan, q, was, future)
    requires IsFirst(future, q, minId) && IsLast(future, q, maxId)
    requires future[maxId] <= low || future[maxId] - future[minId] <= 1
    ensures SecondariesSettled(v, used, plan, low, q, future)
  {}

  /** The loop: it ends, its dassert never fires, and what remains is settled or blocked. */
  method ShiftSecondaries(v: View, used: set<nat>, low: int, loads0: seq<DiskLoad>, future0: seq<int>)
    returns (plan: Plan, future: seq<int>, ghost q: set<nat>, ghost turns: seq<Turn>)
    requires ValidView(v) && forall s :: s in Servers(v.n) ==> Collected(v, s, false)
    requires LoadsOk(v.n, low, Servers(v.n), future0, future0)
    requires Planned(v, used, low, map[], Servers(v.n), future0, future0)
    requires MadeGreedily(v, used, low, map[], Servers(v.n), future0, future0, loads0, [])
    ensures ValidPlan(v, plan) && LoadIs(ExecutePlan(v, plan), false, future)
    ensures LoadsOk(v.n, low, q, future0, future) && Planned(v, used, low, plan, q, future0, future)
    ensures plan == PlanAfter(turns) && q == QueueAfter(v.n, turns) && Turns(v, used, low, turns)
    ensures SecondariesSettled(v, used, plan, low, q, future)
  {
    var queue, loads := Servers(v.n), loads0;
    plan, turns, future := map[], [], future0;
    assert 1 in queue;
    while true
      invariant queue != {}
      invariant LoadsOk(v.n, low, queue, future0, future) && Planned(v, used, low, plan, queue, future0, future)
      invariant MadeGreedily(v, used, low, plan, queue, future0, future, loads, turns)
      decreases queue, Squares(future, v.n)
    {
      var minId, maxId := Ends(queue, future);
      MinAtMostLow(v.n, low, queue, future0, future, minId);
      assert future[minId] <= low;
      if future[maxId] <= low || future[maxId] - future[minId] <= 1 {
        q := queue;
        Settle(v, used, low, plan, q, future0, future, minId, maxId);
        return;
      }
      var selected := SelectSecondary(v, used, plan, maxId, minId, loads[maxId]);
      if selected.None? {
        GiveUp(v, used, low, plan, queue, future0, future, minId, maxId);
        GiveUpIsTurn(v, used, low, plan, queue, future, minId, maxId);
        TurnsOneMore(v, used, low, turns, GivenUp(maxId));
        assert minId in queue - {maxId};
        queue, turns := queue - {maxId}, turns + [GivenUp(maxId)];
      } else {
        var i, r := selected.value, Request.CopySecondary(maxId, minId);
        LoadsAndPlanOneMore(v, used, low, plan, queue, future0, future, i, r);
        GreedilyOneMore(v, used, low, plan, queue, future0, future, loads, turns, i, r);
        loads := TakeFromDisk(loads, maxId, v.configs[i].disk[maxId]);
        plan, turns, future := plan[i := r], turns + [Copied(Decision(i, r))], Shifted(future, maxId, minId);
      }
    }
  }

  /** Read off the executed view: the total is conserved, no server is both a source and a target, a server
      that loses replicas keeps at least `low`, one that gains some ends at most one above it. */
  lemma SecondariesStayOnSide(v: View, used: set<nat>, low: int, plan: Plan, q: set<nat>, was: seq<int>, future: seq<int>)
    requires LoadsOk(v.n, low, q, was, future) && Planned(v, used, low, plan, q, was, future)
    ensures forall i, k :: i in plan && k in plan ==> plan[i].from != plan[k].to
    ensures forall s :: 1 <= s <= v.n ==>
              var c, c' := Replicas(v, s), Replicas(ExecutePlan(v, plan), s);
              (c' < c ==> c' >= low) && (c' > c ==> c' <= low + 1)
    ensures Total(future, v.n) == Total(was, v.n)
  {
    forall s | 1 <= s <= v.n
      ensures was[s] == Replicas(v, s) && future[s] == Replicas(ExecutePlan(v, plan), s)
      ensures (future[s] < was[s] ==> future[s] >= low) && (future[s] > was[s] ==> future[s] <= low + 1)
    {
      assert was[s] == Amount(v, false, s) && future[s] == Amount(ExecutePlan(v, plan), false, s);
      assert s in Servers(v.n);
    }
  }

  /** Fails without a plan when replica infos are missing. Otherwise the turns, played from the full queue, give the
      plan and what is left of the queue, and the last queue allows no further turn. */
  method CopySecondaryPerApp(v: View, used: set<nat>)
    returns (ok: bool, plan: Plan, low: int, was: seq<int>, future: seq<int>, ghost q: set<nat>, ghost turns: seq<Turn>)
    requires ValidView(v)
    ensures ok <==> forall s :: 1 <= s <= v.n ==> Collected(v, s, false)
    ensures !ok ==> plan == map[]
    ensures LoadIs(v, false, was)
    ensures ok ==> low == Total(was, v.n) / v.n
    ensures ok ==> LoadsOk(v.n, low, q, was, future) && Planned(v, used, low, plan, q, was, future)
    ensures ok ==> plan == PlanAfter(turns) && q == QueueAfter(v.n, turns) && Turns(v, used, low, turns)
    ensures ok ==> SecondariesSettled(v, used, plan, low, q, future)
  {
    plan, turns, low, q := map[], [], 0, {};
    was := CountLoads(v, false);
    future := was;
    var loads;
    ok, loads := DiskLoads(v, false);
    if ok {
      var total := TotalPartitions(v.n, was);
      TotalAtLeast(was, v.n, 0);
      low := total / v.n;
      LowIsMean(v.n, was);
      StartSecondary(v, used, was, loads, low);
      plan, future, q, turns := ShiftSecondaries(v, used, low, loads, was);
    }
  }
}
