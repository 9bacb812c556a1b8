/** primary_balancer_per_app: one round of primary balancing for one app. */
module PrimaryBalancer {
  import opened Counting
  import opened Cluster
  import opened WidestPath
  import opened FlowNetwork
  import opened CopyPrimary
  import opened MovePrimary

  function Low(v: View): nat
    requires v.n > 0
  {
    |v.configs| / v.n
  }

  function High(v: View): nat
    requires v.n > 0
  {
    (|v.configs| + v.n - 1) / v.n
  }

  /** Every server holds its share of the primaries, rounded down or up. */
  ghost predicate Balanced(v: View)
    requires v.n > 0
  {
    forall s :: 1 <= s <= v.n ==> Low(v) <= Primaries(v, s) <= High(v)
  }

  /** What the two marks are for: any two servers are within one primary of each other. */
  ghost predicate WithinOne(v: View) {
    forall a, b :: 1 <= a <= v.n && 1 <= b <= v.n ==> Primaries(v, a) - Primaries(v, b) <= 1
  }

  /** The marks are the mean, rounded down and up. */
  lemma MarksAreClose(v: View)
    requires v.n > 0
    ensures High(v) - Low(v) <= 1
  {
    var m, n := |v.configs|, v.n;
    LowBelowHigh(v);
    assert n * High(v) <= m + n - 1;
    if High(v) > Low(v) + 1 {
      MulAtLeast(n, Low(v) + 2, High(v));
    }
  }

  lemma MulAtLeast(n: nat, a: int, b: int)
    requires a <= b
    ensures n * a <= n * b
  {}

  /** No server is below the low mark when all are within one of each other: the others could not make up for it. */
  lemma WithinOneMeansLow(v: View, load: seq<int>, s: nat)
    requires ValidView(v) && LoadIs(v, true, load) && 1 <= s <= v.n && WithinOne(v)
    ensures load[s] >= Low(v)
  {
    PrimariesAddUp(v, load);
    LowBelowHigh(v);
    if load[s] < Low(v) {
      forall k | 1 <= k <= v.n ensures load[k] <= Low(v) {
        assert load[k] == Amount(v, true, k) && load[s] == Amount(v, true, s);
      }
      TotalUpdate(load, v.n, s, Low(v));
      TotalAtMost(load[s := Low(v)], v.n, Low(v));
    }
  }

  /** An app is balanced exactly when any two of its servers are within one primary of each other. */
  lemma BalancedMeansWithinOne(v: View)
    requires ValidView(v)
    ensures Balanced(v) <==> WithinOne(v)
  {
    MarksAreClose(v);
    if WithinOne(v) {
      var load := SomeLoad(v);
      forall s | 1 <= s <= v.n ensures Primaries(v, s) == load[s] && load[s] >= Low(v) {
        assert load[s] == Amount(v, true, s);
        WithinOneMeansLow(v, load, s);
      }
      FinishedMeansBalanced(v, false, load);
    }
  }

  method CountOutside(v: View) returns (lower: nat, higher: nat)
    requires ValidView(v)
    ensures lower == 0 && higher == 0 <==> WithinOne(v)
    ensures lower == 0 <==> forall s :: 1 <= s <= v.n ==> Primaries(v, s) >= Low(v)
    ensures higher == 0 <==> forall s :: 1 <= s <= v.n ==> Primaries(v, s) <= High(v)
  {
    lower, higher := 0, 0;
    LowBelowHigh(v);
    BalancedMeansWithinOne(v);
    for s := 1 to v.n + 1
      invariant lower == 0 <==> forall k :: 1 <= k < s ==> Primaries(v, k) >= Low(v)
      invariant higher == 0 <==> forall k :: 1 <= k < s ==> Primaries(v, k) <= High(v)
    {
      var c := Primaries(v, s);
      if c > High(v) {
        higher := higher + 1;
      } else if c < Low(v) {
        lower := lower + 1;
      }
    }
  }

  lemma LowBelowHigh(v: View)
    requires v.n > 0
    ensures Low(v) <= High(v)
    ensures v.n * Low(v) <= |v.configs| <= v.n * High(v) && |v.configs| < v.n * (Low(v) + 1)
  {
    var m, n := |v.configs|, v.n;
    assert m == n * (m / n) + m % n;
    assert m + n - 1 == n * High(v) + (m + n - 1) % n;
    if High(v) < Low(v) {
      MulStrict(n, High(v), Low(v));
    }
  }

  lemma MulStrict(n: nat, a: int, b: int)
    requires n > 0 && a < b
    ensures n * a < n * b
  {}

  /** Some primaries can be moved towards the target along a path. */
  ghost predicate Improvable(v: View, t: int) {
    exists p, f :: Augments(v, t, p, f)
  }

  ghost predicate NoneCarriesMore(v: View, t: int, f: int) {
    forall q, g :: Augments(v, t, q, g) ==> g <= f
  }

  /** The search result for this network, and whether it reached the sink. */
  method Search(v: View, ghost t: int, net: Network) returns (found: bool, flow: seq<int>, prev: seq<int>, ghost p: seq<nat>)
    requires ValidView(v) && 0 <= t <= INT_MAX && IsNetwork(v, t, net)
    ensures |flow| == |prev| == v.n + 2
    ensures found <==> Improvable(v, t)
    ensures !found ==> Stuck(v, t)
    ensures found ==> FlowPath(v, t, p, prev, flow[v.n + 1]) && NoneCarriesMore(v, t, flow[v.n + 1])
  {
    NetworkIsValid(v, t, net);
    var visits := new bool[v.n + 2](_ => false);
    var flows := new int[v.n + 2](_ => 0);
    var prevs := new int[v.n + 2](_ => -1);
    ShortestPath(visits, flows, prevs, net);
    flow, prev, p := flows[..], prevs[..], [];
    found := visits[v.n + 1] && flows[v.n + 1] != 0;
    if found {
      p := FoundFlowPath(v, t, net, Labels(visits[..], flow, prev));
      assert Augments(v, t, p, flow[v.n + 1]);
    } else {
      NoPathMeansStuck(v, t, net);
    }
    forall q, g | Augments(v, t, q, g) ensures found && g <= flow[v.n + 1] {
      AugmentsIsPath(v, t, net, q, g);
    }
  }

  /** A plan leaves every server on its side of the target. */
  ghost predicate StaysOnSide(v: View, t: int, plan: Plan) {
    forall s :: 1 <= s <= v.n ==>
      var c, c' := Primaries(v, s), Primaries(ExecutePlan(v, plan), s);
      if c < t then c <= c' <= t else t <= c' <= c
  }

  /** What one round may do: a valid plan that moves or copies primaries only, keeps every server on its
      side of the target, and strictly lowers the spread unless it is empty. */
  ghost predicate GoodRound(v: View, t: int, plan: Plan) {
    && ValidPlan(v, plan) && (forall i :: i in plan ==> !plan[i].CopySecondary?)
    && StaysOnSide(v, t, plan)
    && (plan != map[] ==> Spread(ExecutePlan(v, plan), true, v.n) < Spread(v, true, v.n))
  }

  lemma EmptyRoundIsGood(v: View, t: int)
    ensures GoodRound(v, t, map[])
  {
    ExecuteNothing(v);
  }

  lemma CopyIsGoodRound(v: View, t: int, plan: Plan, future: seq<int>)
    requires ValidView(v) && Copying(v, t, plan, future)
    ensures GoodRound(v, t, plan)
  {
    SpreadIsSquares(ExecutePlan(v, plan), true, future, v.n);
    assert forall s :: 1 <= s <= v.n ==> future[s] == Amount(ExecutePlan(v, plan), true, s);
  }

  lemma MoveIsGoodRound(v: View, t: int, plan: Plan, prev: seq<int>, p: seq<nat>, f: int)
    requires ValidView(v) && FlowPath(v, t, p, prev, f)
    requires FollowsPath(v, plan, p, 1) && FlowMoved(v, t, plan, p[1], p[|p| - 2], f)
    ensures GoodRound(v, t, plan) && plan != map[]
  {
    FlowNarrows(v, t, plan, p[1], p[|p| - 2], f);
    forall i | i in plan ensures i < |v.configs| && RequestValid(v.configs[i], plan[i], v.n) && plan[i].MovePrimary? {
      var j: nat :| MovesEdge(v, p, 1, i, plan[i], j);
    }
    if plan == map[] {
      ExecuteNothing(v);
    }
  }

  /** Copying has something to do whenever the app is not balanced. */
  lemma FinishedMeansBalanced(v: View, stillLess: bool, load: seq<int>)
    requires ValidView(v) && LoadIs(v, true, load) && Finished(v.n, stillLess, Low(v), load)
    requires !stillLess ==> forall s :: 1 <= s <= v.n ==> Primaries(v, s) >= Low(v)
    ensures stillLess ==> forall s :: 1 <= s <= v.n ==> Primaries(v, s) >= Low(v)
    ensures !stillLess ==> Balanced(v)
  {
    forall s | 1 <= s <= v.n ensures load[s] == Primaries(v, s) {
      assert load[s] == Amount(v, true, s);
    }
    if !stillLess {
      PrimariesAddUp(v, load);
      LowBelowHigh(v);
      forall s | 1 <= s <= v.n ensures load[s] <= High(v) {
        if load[s] > High(v) {
          TotalUpdate(load, v.n, s, High(v));
          AtLeastHigh(v.n, load, s, High(v));
        }
      }
    }
  }

  lemma AtLeastHigh(n: nat, load: seq<int>, s: nat, high: int)
    requires |load| == n + 2 && 1 <= s <= n && load[s] > high
    requires forall k :: 1 <= k <= n ==> load[s] - load[k] <= 1
    ensures Total(load[s := high], n) >= n * high
  {
    TotalAtLeast(load[s := high], n, high);
  }

  /** The low mark, or one more when only the high mark is exceeded. */
  ghost function Target(v: View): int
    requires v.n > 0
  {
    if !Balanced(v) && (forall s :: 1 <= s <= v.n ==> Primaries(v, s) >= Low(v)) then Low(v) + 1 else Low(v)
  }

  /** No primaries can be moved towards the target along any path. */
  ghost predicate CannotMove(v: View, t: int)
    requires v.n > 0
  {
    t == Target(v) && !Improvable(v, t)
  }

  /** Moves along an augmenting path that carries most, each with the best disk score in its turn. */
  ghost predicate MovesWidest(v: View, t: int, ok: bool, plan: Plan, p: seq<nat>, f: int, steps: seq<Decision>) {
    && Augments(v, t, p, f) && NoneCarriesMore(v, t, f)
    && (ok <==> forall k :: 0 < k < |p| - 1 ==> Collected(v, p[k], true))
    && (ok ==> FollowsPath(v, plan, p, 1) && FlowMoved(v, t, plan, p[1], p[|p| - 2], f))
    && (ok ==> plan == PlanOf(steps) && GreedyMoves(v, steps))
  }

  /** Copies from the servers above the target to those below it, until the loop's goal is reached. */
  ghost predicate CopiesGreedily(v: View, t: int, ok: bool, plan: Plan, steps: seq<Decision>)
    requires v.n > 0
  {
    && (ok <==> PrimariesCollected(v)) && OneWay(v, t, plan)
    && plan == PlanOf(steps) && GreedyRun(v, steps)
    && (ok ==> exists load :: LoadIs(ExecutePlan(v, plan), true, load) && Finished(v.n, t == Low(v), Low(v), load))
  }

  /** What the round does in each case. */
  ghost predicate RoundDone(v: View, t: int, onlyMove: bool, ok: bool, plan: Plan, p: seq<nat>, f: int,
                            steps: seq<Decision>)
    requires v.n > 0
  {
    && (!ok ==> plan == map[])
    && if Balanced(v) then ok && plan == map[]
       else if Improvable(v, t) then MovesWidest(v, t, ok, plan, p, f, steps)
       else if onlyMove then ok && plan == map[]
       else CopiesGreedily(v, t, ok, plan, steps)
  }

  /** One round. It fails only when replica infos are missing. Unless copying is disabled, a round that
      plans nothing means that the app is balanced. */
  method PrimaryBalancerPerApp(v: View, onlyMove: bool)
    returns (ok: bool, plan: Plan, ghost t: int, ghost p: seq<nat>, ghost f: int, ghost steps: seq<Decision>)
    requires ValidView(v) && TagsKnown(v)
    ensures t == Target(v) && RoundDone(v, t, onlyMove, ok, plan, p, f, steps)
    ensures GoodRound(v, t, plan)
    ensures PrimariesCollected(v) ==> ok
    ensures WithinOne(v) ==> ok && plan == map[]
    ensures ok && !onlyMove && plan == map[] ==> WithinOne(v)
    ensures ok && onlyMove && plan == map[] ==> WithinOne(v) || CannotMove(v, t)
  {
    var low := |v.configs| / v.n;
    var lower, higher := CountOutside(v);
    t := Target(v);
    if higher == 0 && lower == 0 {
      EmptyRoundIsGood(v, t);
      return true, map[], t, [], 0, [];
    }
    ok, plan, p, f, steps := UnbalancedRound(v, onlyMove, low, lower != 0, t);
  }

  /** The round once the app is known not to be balanced. */
  method UnbalancedRound(v: View, onlyMove: bool, low: nat, stillLess: bool, ghost t: int)
    returns (ok: bool, plan: Plan, ghost p: seq<nat>, ghost f: int, ghost steps: seq<Decision>)
    requires ValidView(v) && TagsKnown(v) && !Balanced(v) && low == Low(v) && t == Target(v)
    requires stillLess <==> exists s :: 1 <= s <= v.n && Primaries(v, s) < low
    ensures RoundDone(v, t, onlyMove, ok, plan, p, f, steps) && GoodRound(v, t, plan)
    ensures PrimariesCollected(v) ==> ok
    ensures ok && plan == map[] ==> onlyMove && CannotMove(v, t)
  {
    plan, p, f, steps := map[], [], 0, [];
    assert 0 <= t <= INT_MAX && t == if stillLess then low else low + 1 by {
      LowBelowMax(v);
    }
    var net := TargetGraph(v, low, !stillLess);
    var found, flow, prev;
    found, flow, prev, p := Search(v, t, net);
    if found {
      f := flow[v.n + 1];
      ok, plan, steps := MoveRound(v, t, prev, flow, p);
    } else if onlyMove {
      EmptyRoundIsGood(v, t);
      ok := true;
    } else {
      ok, plan, steps := CopyRound(v, t, stillLess, low);
    }
  }

  lemma LowBelowMax(v: View)
    requires ValidView(v)
    ensures Low(v) + 1 <= INT_MAX
  {
    LowBelowHigh(v);
    MulGrows(v.n, Low(v));
  }

  lemma MulGrows(n: nat, a: nat)
    requires n >= 3
    ensures n * a >= 3 * a
  {}

  method TargetGraph(v: View, low: nat, onlyTooHigh: bool) returns (net: Network)
    requires ValidView(v)
    requires onlyTooHigh ==> forall s :: 1 <= s <= v.n ==> Primaries(v, s) >= low
    ensures IsNetwork(v, if onlyTooHigh then low + 1 else low, net)
  {
    net := MakeGraph(v, low);
    if onlyTooHigh {
      net := RaiseTarget(v, low, net);
    }
  }

  method MoveRound(v: View, ghost t: int, prev: seq<int>, flow: seq<int>, ghost p: seq<nat>)
    returns (ok: bool, plan: Plan, ghost steps: seq<Decision>)
    requires ValidView(v) && TagsKnown(v) && |flow| == v.n + 2
    requires FlowPath(v, t, p, prev, flow[v.n + 1]) && NoneCarriesMore(v, t, flow[v.n + 1])
    ensures GoodRound(v, t, plan)
    ensures MovesWidest(v, t, ok, plan, p, flow[v.n + 1], steps)
    ensures ok <==> plan != map[]
    ensures PrimariesCollected(v) ==> ok
  {
    ok, plan, steps := MovePrimaryBasedOnFlow(v, t, prev, flow, p);
    if ok {
      MoveIsGoodRound(v, t, plan, prev, p, flow[v.n + 1]);
    } else {
      EmptyRoundIsGood(v, t);
    }
  }

  method CopyRound(v: View, ghost t: int, stillLess: bool, low: nat)
    returns (ok: bool, plan: Plan, ghost steps: seq<Decision>)
    requires ValidView(v) && low == Low(v) && t == (if stillLess then low else low + 1)
    requires stillLess <==> exists s :: 1 <= s <= v.n && Primaries(v, s) < low
    requires Stuck(v, t)
    ensures GoodRound(v, t, plan)
    ensures CopiesGreedily(v, t, ok, plan, steps) && (!ok ==> plan == map[])
    ensures ok && plan == map[] ==> Balanced(v)
  {
    var future;
    ok, plan, future, steps := CopyPrimaryPerApp(v, stillLess, low);
    CopyIsGoodRound(v, t, plan, future);
    if ok && plan == map[] {
      ExecuteNothing(v);
      FinishedMeansBalanced(v, stillLess, future);
    }
  }

  /** A sequence of non-empty rounds, each executed in full before the next one is planned. */
  ghost predicate Rounds(v: View, plans: seq<Plan>)
    decreases |plans|
  {
    plans == [] || (
      && plans[0] != map[] && (exists t :: GoodRound(v, t, plans[0]))
      && Rounds(ExecutePlan(v, plans[0]), plans[1..]))
  }

  /** Balancing converges: the number of rounds is bounded by the spread of the first view. */
  lemma {:induction false} RoundsAreBounded(v: View, plans: seq<Plan>)
    requires Rounds(v, plans)
    ensures |plans| <= Spread(v, true, v.n)
    decreases |plans|
  {
    if plans != [] {
      RoundsAreBounded(ExecutePlan(v, plans[0]), plans[1..]);
    }
  }

  /** What a round needs to know about the replicas. */
  ghost predicate Reported(v: View) {
    TagsKnown(v) && PrimariesCollected(v)
  }

  /** Once the servers have reported their disks again, the executed view is one the balancer may run on. */
  lemma ReadyAgain(v: View, plan: Plan, tag: (nat, nat) -> string)
    requires ValidView(v) && ValidPlan(v, plan)
    ensures var w := Recollected(ExecutePlan(v, plan), tag);
            && ValidView(w) && Reported(w) && w.n == v.n && |w.configs| == |v.configs|
            && Spread(w, true, v.n) == Spread(ExecutePlan(v, plan), true, v.n)
  {
    ExecuteKeepsValid(v, plan);
    var u, w := ExecutePlan(v, plan), Recollected(ExecutePlan(v, plan), tag);
    forall i | 0 <= i < |w.configs| ensures ValidConfig(w.configs[i], w.n) {
      assert ValidConfig(u.configs[i], u.n);
    }
    SameSpread(u, w, v.n);
  }

  lemma {:induction false} SameSpread(u: View, w: View, k: nat)
    requires |u.configs| == |w.configs| && forall i :: 0 <= i < |u.configs| ==> u.configs[i].primary == w.configs[i].primary
    ensures Spread(u, true, k) == Spread(w, true, k)
  {
    if k > 0 {
      CountSame(u.configs, w.configs, PrimaryAt(k));
      SameSpread(u, w, k - 1);
    }
  }

  /** One round that is executed and reported, unless it plans nothing. */
  method BalanceOnce(v: View, onlyMove: bool, tag: (nat, nat) -> string) returns (done: bool, w: View, ghost t: int)
    requires ValidView(v) && Reported(v)
    ensures done ==> w == v && (WithinOne(v) || (onlyMove && CannotMove(v, t)))
    ensures !done ==>
              && ValidView(w) && Reported(w) && w.n == v.n && |w.configs| == |v.configs|
              && Spread(w, true, w.n) < Spread(v, true, v.n)
  {
    var ok, plan;
    ghost var p, f, steps;
    ok, plan, t, p, f, steps := PrimaryBalancerPerApp(v, onlyMove);
    done, w := plan == map[], v;
    if !done {
      ReadyAgain(v, plan, tag);
      w := Recollected(ExecutePlan(v, plan), tag);
    }
  }

  /** Rounds of balancing, each executed and reported before the next one: they come to an end, and then the app is
      balanced or, with copying disabled, no move can help. */
  method BalancePrimaries(v0: View, onlyMove: bool, tags: nat -> ((nat, nat) -> string))
    returns (v: View, rounds: nat, ghost t: int)
    requires ValidView(v0)
    ensures ValidView(v) && v.n == v0.n && |v.configs| == |v0.configs|
    ensures WithinOne(v) || (onlyMove && CannotMove(v, t))
    ensures rounds <= Spread(v0, true, v0.n)
  {
    rounds := 0;
    ExecuteNothing(v0);
    ReadyAgain(v0, map[], tags(0));
    v := Recollected(v0, tags(0));
    while true
      invariant ValidView(v) && Reported(v) && v.n == v0.n && |v.configs| == |v0.configs|
      invariant rounds + Spread(v, true, v.n) <= Spread(v0, true, v0.n)
      decreases Spread(v, true, v.n)
    {
      var done;
      done, v, t := BalanceOnce(v, onlyMove, tags(rounds + 1));
      if done {
        return;
      }
      rounds := rounds + 1;
    }
  }
}
