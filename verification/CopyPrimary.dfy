/** copy_primary_per_app: when no primary can be moved to one of its secondaries, copy primaries from
    the most to the least loaded servers. */
module CopyPrimary {
  import opened Counting
  import opened Options
  import opened Cluster
  import opened FlowNetwork

  predicate Candidate(v: View, plan: Plan, from: nat, i: nat) {
    i < |v.configs| && i !in plan && v.configs[i].primary == from && from in v.configs[i].disk
  }

  /** `i` is the first candidate on a disk with the largest load. */
  ghost predicate OnFullestDisk(v: View, plan: Plan, from: nat, load: DiskLoad, i: nat) {
    && Candidate(v, plan, from, i)
    && forall j: nat :: Candidate(v, plan, from, j) ==>
         && LoadOf(load, v.configs[j].disk[from]) <= LoadOf(load, v.configs[i].disk[from])
         && (j < i ==> LoadOf(load, v.configs[j].disk[from]) < LoadOf(load, v.configs[i].disk[from]))
  }

  /** One decision of the loop, read off the state the plan so far would lead to: from the last to the
      first server of the queue, and the first primary on a disk that would hold most primaries. */
  ghost predicate GreedyCopy(v: View, plan: Plan, d: Decision) {
    var w, from := ExecutePlan(v, plan), d.request.from;
    && d.request.CopyPrimary?
    && (exists load :: LoadIs(w, true, load) && IsLast(load, Servers(v.n), from)
                       && IsFirst(load, Servers(v.n), d.request.to))
    && Candidate(v, plan, from, d.i)
    && forall j: nat :: Candidate(v, plan, from, j) ==>
         && DiskReplicas(w, from, true, v.configs[j].disk[from])
            <= DiskReplicas(w, from, true, v.configs[d.i].disk[from])
         && (j < d.i ==> DiskReplicas(w, from, true, v.configs[j].disk[from])
                         < DiskReplicas(w, from, true, v.configs[d.i].disk[from]))
  }

  ghost predicate GreedyRun(v: View, steps: seq<Decision>) {
    steps == [] || (var k := |steps| - 1;
                    GreedyRun(v, steps[..k]) && GreedyCopy(v, PlanOf(steps[..k]), steps[k]))
  }

  lemma GreedyOneMore(v: View, steps: seq<Decision>, d: Decision)
    requires GreedyRun(v, steps) && GreedyCopy(v, PlanOf(steps), d)
    ensures GreedyRun(v, steps + [d])
  {}

  /** Servers below the target only rise, to at most the target; the others only fall, to no less. */
  ghost predicate TowardsTarget(v: View, t: int, future: seq<int>)
    requires |future| == v.n + 2
  {
    forall s :: 1 <= s <= v.n ==>
      if Primaries(v, s) < t then Primaries(v, s) <= future[s] <= t else t <= future[s] <= Primaries(v, s)
  }

  /** No server is both a source and a target of copies. */
  ghost predicate OneWay(v: View, t: int, plan: Plan) {
    forall i :: i in plan ==> && plan[i].CopyPrimary?
                              && Primaries(v, plan[i].from) > t && Primaries(v, plan[i].to) < t
  }

  /** The disk loads of every server above the target are those of the planned state. */
  ghost predicate DisksAgree(v: View, t: int, plan: Plan, loads: seq<DiskLoad>)
    requires |loads| == v.n + 2
  {
    forall s :: 1 <= s <= v.n && Primaries(v, s) > t ==> DiskAgrees(ExecutePlan(v, plan), s, loads[s])
  }

  /** Loop invariant: `future` is what the servers would hold once `plan` has been executed. */
  ghost predicate Copying(v: View, t: int, plan: Plan, future: seq<int>) {
    && ValidPlan(v, plan) && OneWay(v, t, plan)
    && LoadIs(ExecutePlan(v, plan), true, future)
    && TowardsTarget(v, t, future)
    && Narrower(v, plan != map[], future)
  }

  /** The total is conserved and the spread has shrunk. */
  ghost predicate Narrower(v: View, strictly: bool, future: seq<int>)
    requires |future| == v.n + 2
  {
    && Total(future, v.n) == |v.configs|
    && Squares(future, v.n) <= Spread(v, true, v.n)
    && (strictly ==> Squares(future, v.n) < Spread(v, true, v.n))
  }

  lemma NarrowerOneMore(v: View, strictly: bool, future: seq<int>, from: nat, to: nat)
    requires |future| == v.n + 2 && Narrower(v, strictly, future)
    requires 1 <= from <= v.n && 1 <= to <= v.n && future[from] - future[to] >= 2
    ensures Narrower(v, true, Shifted(future, from, to))
    ensures Squares(Shifted(future, from, to), v.n) < Squares(future, v.n)
  {
    ShiftLowersSquares(future, v.n, from, to, 1);
  }

  lemma StartCopying(v: View, t: int, load: seq<int>)
    requires ValidView(v) && LoadIs(v, true, load)
    ensures ExecutePlan(v, map[]) == v && Copying(v, t, map[], load)
  {
    ExecuteNothing(v);
    PrimariesAddUp(v, load);
    SpreadIsSquares(v, true, load, v.n);
  }

  /** A server above the target still has a primary that is in no request. */
  lemma SourceHasCandidate(v: View, t: int, plan: Plan, future: seq<int>, from: nat) returns (i: nat)
    requires ValidView(v) && t >= 0 && Copying(v, t, plan, future) && Collected(v, from, true)
    requires 1 <= from <= v.n && future[from] > t
    ensures Candidate(v, plan, from, i)
  {
    i := CountWitness(ExecutePlan(v, plan).configs, PrimaryAt(from));
    if i in plan {
      RequestRuns(v.configs[i], plan[i], v.n);
      assert false;
    }
  }

  /** Why the dassert on membership holds: the target would otherwise end an augmenting path. */
  lemma TargetIsNoMember(v: View, t: int, plan: Plan, future: seq<int>, from: nat, to: nat, i: nat)
    requires ValidView(v) && Copying(v, t, plan, future) && Stuck(v, t)
    requires 1 <= from <= v.n && 1 <= to <= v.n && future[from] > t > future[to]
    requires Candidate(v, plan, from, i)
    ensures !IsMember(v.configs[i], to)
    ensures RequestValid(v.configs[i], Request.CopyPrimary(from, to), v.n)
  {}

  lemma PlanOneMore(v: View, t: int, plan: Plan, i: nat, r: Request)
    requires ValidPlan(v, plan) && OneWay(v, t, plan)
    requires r.CopyPrimary? && Primaries(v, r.from) > t > Primaries(v, r.to)
    requires i < |v.configs| && RequestValid(v.configs[i], r, v.n)
    ensures ValidPlan(v, plan[i := r]) && OneWay(v, t, plan[i := r])
  {}

  lemma TowardsTargetOneMore(v: View, t: int, future: seq<int>, from: nat, to: nat)
    requires |future| == v.n + 2 && TowardsTarget(v, t, future)
    requires 1 <= from <= v.n && 1 <= to <= v.n && future[from] > t > future[to]
    ensures Primaries(v, from) > t > Primaries(v, to)
    ensures TowardsTarget(v, t, Shifted(future, from, to))
  {}

  lemma CopyingOneMore(v: View, t: int, plan: Plan, future: seq<int>, i: nat, r: Request)
    requires ValidView(v) && Copying(v, t, plan, future)
    requires r.CopyPrimary? && 1 <= r.from <= v.n && 1 <= r.to <= v.n && future[r.from] > t > future[r.to]
    requires i !in plan && i < |v.configs| && RequestValid(v.configs[i], r, v.n)
    ensures Copying(v, t, plan[i := r], Shifted(future, r.from, r.to))
    ensures Squares(Shifted(future, r.from, r.to), v.n) < Squares(future, v.n)
  {
    LoadOneMore(v, true, plan, i, r, future);
    NarrowerOneMore(v, plan != map[], future, r.from, r.to);
    TowardsTargetOneMore(v, t, future, r.from, r.to);
    PlanOneMore(v, t, plan, i, r);
  }

  lemma DiskOneMore(v: View, plan: Plan, i: nat, r: Request, s: nat, load: DiskLoad)
    requires ValidView(v) && DiskAgrees(ExecutePlan(v, plan), s, load)
    requires Candidate(v, plan, r.from, i) && RequestValid(v.configs[i], r, v.n) && r.CopyPrimary? && s != r.to
    ensures var tag := v.configs[i].disk[r.from];
            DiskAgrees(ExecutePlan(v, plan[i := r]), s, if s == r.from then load[tag := LoadOf(load, tag) - 1] else load)
  {
    ExecuteOneMore(v, plan, i, r);
    RequestRuns(v.configs[i], r, v.n);
    forall tag: string
      ensures DiskReplicas(ExecutePlan(v, plan[i := r]), s, true, tag)
              + (if Holds(OnDisk(s, true, tag), v.configs[i]) then 1 else 0)
              == DiskReplicas(ExecutePlan(v, plan), s, true, tag)
    {
      CountUpdate(ExecutePlan(v, plan).configs, i, Executed(v.configs[i], r, v.n), OnDisk(s, true, tag));
    }
  }

  lemma DisksOneMore(v: View, t: int, plan: Plan, loads: seq<DiskLoad>, i: nat, r: Request)
    requires ValidView(v) && |loads| == v.n + 2 && DisksAgree(v, t, plan, loads)
    requires Candidate(v, plan, r.from, i) && RequestValid(v.configs[i], r, v.n) && r.CopyPrimary?
    requires 1 <= r.from <= v.n && Primaries(v, r.to) < t
    ensures var tag := v.configs[i].disk[r.from];
            DisksAgree(v, t, plan[i := r], TakeFromDisk(loads, r.from, tag))
  {
    forall s | 1 <= s <= v.n && Primaries(v, s) > t
      ensures var tag := v.configs[i].disk[r.from];
              DiskAgrees(ExecutePlan(v, plan[i := r]), s,
                         if s == r.from then loads[s][tag := LoadOf(loads[s], tag) - 1] else loads[s])
    {
      DiskOneMore(v, plan, i, r, s, loads[s]);
    }
  }

  /** While the loop goes on, the first server is below the target and the last one above it. */
  lemma EndsStraddleTarget(v: View, stillLess: bool, low: nat, plan: Plan, future: seq<int>, idMin: nat, idMax: nat)
    requires ValidView(v) && low == |v.configs| / v.n
    requires !stillLess ==> forall s :: 1 <= s <= v.n ==> Primaries(v, s) >= low
    requires Copying(v, if stillLess then low else low + 1, plan, future)
    requires IsFirst(future, Servers(v.n), idMin) && IsLast(future, Servers(v.n), idMax)
    requires if stillLess then future[idMin] < low else future[idMax] - future[idMin] > 1
    ensures future[idMin] < (if stillLess then low else low + 1) < future[idMax]
  {
    LowIsFloor(|v.configs|, v.n);
    if stillLess {
      var s := SomeAbove(future, v.n, low, idMin);
      assert s in Servers(v.n);
    } else {
      var s := SomeBelow(future, v.n, low + 1);
      assert s in Servers(v.n);
    }
  }

  lemma LowIsFloor(total: nat, n: nat)
    requires n > 0
    ensures n * (total / n) <= total < n * (total / n + 1)
  {}

  /** The scan for the primary to copy: the first one on a disk with the largest load. */
  method SelectPrimary(v: View, plan: Plan, from: nat, load: DiskLoad) returns (selected: Option<nat>)
    requires Collected(v, from, true)
    ensures selected.None? <==> forall i: nat :: !Candidate(v, plan, from, i)
    ensures selected.Some? ==> OnFullestDisk(v, plan, from, load, selected.value)
  {
    selected := None;
    for i := 0 to |v.configs|
      invariant selected.None? <==> forall j: nat :: j < i ==> !Candidate(v, plan, from, j)
      invariant selected.Some? ==>
                  && selected.value < i && Candidate(v, plan, from, selected.value)
                  && forall j: nat :: j < i && Candidate(v, plan, from, j) ==>
                       && LoadOf(load, v.configs[j].disk[from]) <= LoadOf(load, v.configs[selected.value].disk[from])
                       && (j < selected.value ==>
                             LoadOf(load, v.configs[j].disk[from])
                             < LoadOf(load, v.configs[selected.value].disk[from]))
    {
      if v.configs[i].primary == from && i !in plan {
        assert Candidate(v, plan, from, i);
        if selected.None?
           || LoadOf(load, v.configs[i].disk[from]) > LoadOf(load, v.configs[selected.value].disk[from])
        {
          selected := Some(i);
        }
      }
    }
  }

  ghost predicate PrimariesCollected(v: View) {
    forall s :: 1 <= s <= v.n ==> Collected(v, s, true)
  }

  method DiskLoads(v: View, onlyPrimary: bool) returns (ok: bool, loads: seq<DiskLoad>)
    ensures ok <==> forall s :: 1 <= s <= v.n ==> Collected(v, s, onlyPrimary)
    ensures |loads| == v.n + 2
    ensures ok ==> forall s, tag :: 1 <= s <= v.n ==> LoadOf(loads[s], tag) == DiskReplicas(v, s, onlyPrimary, tag)
  {
    loads := seq(v.n + 2, _ => map[]);
    for s := 1 to v.n + 1
      invariant |loads| == v.n + 2
      invariant forall k :: 1 <= k < s ==> Collected(v, k, onlyPrimary)
      invariant forall k, tag :: 1 <= k < s ==> LoadOf(loads[k], tag) == DiskReplicas(v, k, onlyPrimary, tag)
    {
      var load;
      ok, load := CalcDiskLoad(v, s, onlyPrimary);
      if !ok {
        return;
      }
      loads := loads[s := load];
    }
    ok := true;
  }

  /** The state of the loop. */
  ghost predicate CopyState(v: View, t: int, plan: Plan, future: seq<int>, loads: seq<DiskLoad>, steps: seq<Decision>) {
    && Copying(v, t, plan, future)
    && |loads| == v.n + 2 && DisksAgree(v, t, plan, loads)
    && plan == PlanOf(steps) && GreedyRun(v, steps)
  }

  lemma StepsOneMore(v: View, t: int, plan: Plan, future: seq<int>, loads: seq<DiskLoad>, steps: seq<Decision>,
                     i: nat, r: Request)
    requires CopyState(v, t, plan, future, loads, steps)
    requires r.CopyPrimary? && IsFirst(future, Servers(v.n), r.to) && IsLast(future, Servers(v.n), r.from)
    requires Primaries(v, r.from) > t && OnFullestDisk(v, plan, r.from, loads[r.from], i)
    ensures plan[i := r] == PlanOf(steps + [Decision(i, r)]) && GreedyRun(v, steps + [Decision(i, r)])
  {
    assert DiskAgrees(ExecutePlan(v, plan), r.from, loads[r.from]);
    GreedyOneMore(v, steps, Decision(i, r));
    PlanOfOneMore(steps, Decision(i, r));
  }

  /** Recording the selected copy keeps the state of the loop; the assert is the source's dassert. */
  method RecordCopy(v: View, ghost t: int, plan: Plan, future: seq<int>, loads: seq<DiskLoad>,
                    ghost steps: seq<Decision>, i: nat, r: Request)
    returns (plan': Plan, future': seq<int>, loads': seq<DiskLoad>, ghost steps': seq<Decision>)
    requires ValidView(v) && Stuck(v, t) && CopyState(v, t, plan, future, loads, steps)
    requires r.CopyPrimary? && IsFirst(future, Servers(v.n), r.to) && IsLast(future, Servers(v.n), r.from)
    requires future[r.to] < t < future[r.from] && OnFullestDisk(v, plan, r.from, loads[r.from], i)
    ensures CopyState(v, t, plan', future', loads', steps')
    ensures Squares(future', v.n) < Squares(future, v.n)
  {
    TargetIsNoMember(v, t, plan, future, r.from, r.to, i);
    assert !IsMember(v.configs[i], r.to);
    var tag := v.configs[i].disk[r.from];
    StepsOneMore(v, t, plan, future, loads, steps, i, r);
    plan', steps' := plan[i := r], steps + [Decision(i, r)];
    loads' := TakeFromDisk(loads, r.from, tag);
    future' := Shifted(future, r.from, r.to);
    CopyingOneMore(v, t, plan, future, i, r);
    DisksOneMore(v, t, plan, loads, i, r);
  }

  method ChoosePrimary(v: View, ghost t: int, plan: Plan, ghost future: seq<int>, load: DiskLoad, from: nat)
    returns (i: nat)
    requires ValidView(v) && t >= 0 && Copying(v, t, plan, future) && Collected(v, from, true)
    requires 1 <= from <= v.n && future[from] > t
    ensures OnFullestDisk(v, plan, from, load, i)
  {
    ghost var c := SourceHasCandidate(v, t, plan, future, from);
    var selected := SelectPrimary(v, plan, from, load);
    assert selected.Some?;
    i := selected.value;
  }

  /** The loop body once both ends of the queue are known; its asserts are the source's dasserts. */
  method CopyOne(v: View, ghost t: int, plan: Plan, future: seq<int>, loads: seq<DiskLoad>,
                 ghost steps: seq<Decision>, idMin: nat, idMax: nat)
    returns (plan': Plan, future': seq<int>, loads': seq<DiskLoad>, ghost steps': seq<Decision>)
    requires ValidView(v) && t >= 0 && Stuck(v, t) && PrimariesCollected(v)
    requires CopyState(v, t, plan, future, loads, steps)
    requires IsFirst(future, Servers(v.n), idMin) && IsLast(future, Servers(v.n), idMax)
    requires future[idMin] < t < future[idMax]
    ensures CopyState(v, t, plan', future', loads', steps')
    ensures Squares(future', v.n) < Squares(future, v.n)
  {
    assert idMin != idMax;
    var i := ChoosePrimary(v, t, plan, future, loads[idMax], idMax);
    plan', future', loads', steps' :=
      RecordCopy(v, t, plan, future, loads, steps, i, Request.CopyPrimary(idMax, idMin));
  }

  /** What the loop stops at: every server at `low`, or all servers within one of each other. */
  ghost predicate Finished(n: nat, stillLess: bool, low: nat, load: seq<int>)
    requires |load| == n + 2
  {
    if stillLess then forall s :: 1 <= s <= n ==> load[s] >= low
    else forall a, b :: 1 <= a <= n && 1 <= b <= n ==> load[a] - load[b] <= 1
  }

  /** The plan never fires a dassert of the loop, never overshoots the target, and ends with every
      server at `low` or more, or, with only too-high servers, with all servers within one of each
      other. It is a greedy run, and it lowers the spread unless it is empty. */
  method CopyPrimaryPerApp(v: View, stillLess: bool, low: nat)
    returns (ok: bool, plan: Plan, future: seq<int>, ghost steps: seq<Decision>)
    requires ValidView(v) && low == |v.configs| / v.n
    requires !stillLess ==> forall s :: 1 <= s <= v.n ==> Primaries(v, s) >= low
    requires Stuck(v, if stillLess then low else low + 1)
    ensures ok <==> PrimariesCollected(v)
    ensures !ok ==> plan == map[]
    ensures Copying(v, if stillLess then low else low + 1, plan, future)
    ensures plan == PlanOf(steps) && GreedyRun(v, steps)
    ensures ok ==> Finished(v.n, stillLess, low, future)
  {
    ghost var t := if stillLess then low else low + 1;
    plan, steps := map[], [];
    future := CountLoads(v, true);
    StartCopying(v, t, future);
    var loads;
    ok, loads := DiskLoads(v, true);
    if !ok {
      return;
    }
    var queue := Servers(v.n);
    while true
      invariant CopyState(v, t, plan, future, loads, steps)
      decreases Squares(future, v.n)
    {
      assert 1 in queue;
      var idMin, idMax := Ends(queue, future);
      if if stillLess then future[idMin] >= low else future[idMax] - future[idMin] <= 1 {
        EndsBound(v.n, stillLess, low, future, idMin, idMax);
        break;
      }
      EndsStraddleTarget(v, stillLess, low, plan, future, idMin, idMax);
      plan, future, loads, steps := CopyOne(v, t, plan, future, loads, steps, idMin, idMax);
    }
  }

  lemma EndsBound(n: nat, stillLess: bool, low: nat, future: seq<int>, idMin: nat, idMax: nat)
    requires |future| == n + 2
    requires IsFirst(future, Servers(n), idMin) && IsLast(future, Servers(n), idMax)
    requires if stillLess then future[idMin] >= low else future[idMax] - future[idMin] <= 1
    ensures Finished(n, stillLess, low, future)
  {
    forall s | 1 <= s <= n ensures future[idMin] <= future[s] <= future[idMax] {
      assert s in Servers(n);
    }
  }
}
