/** The meta server's view of one app, the balancer's proposals and what executing them does.
    Servers are the ids 1..n that number_nodes hands out; 0 is the invalid address. */
module Cluster {
  import opened Counting
  import opened Options

  /** A partition configuration with the disk tags collected for its serving replicas. */
  datatype Config = Config(primary: nat, secondaries: seq<nat>, disk: map<nat, string>)

  predicate IsMember(c: Config, s: nat) {
    c.primary == s || s in c.secondaries
  }

  predicate Distinct(s: seq<nat>) {
    forall i, j :: 0 <= i < j < |s| ==> s[i] != s[j]
  }

  /** A healthy partition on servers 1..n: a primary, and distinct secondaries elsewhere. */
  predicate ValidConfig(c: Config, n: nat) {
    && 1 <= c.primary <= n && c.primary !in c.secondaries
    && Distinct(c.secondaries)
    && forall s :: s in c.secondaries ==> 1 <= s <= n
  }

  // ---- proposals -------------------------------------------------------------------------

  datatype ActionType = AddSecondaryForLb | DowngradeToSecondary | UpgradeToPrimary | Remove

  datatype Action = Action(target: nat, node: nat, kind: ActionType)

  datatype Request =
    | MovePrimary(from: nat, to: nat)
    | CopyPrimary(from: nat, to: nat)
    | CopySecondary(from: nat, to: nat)

  /** At most one request per partition index. */
  type Plan = map<nat, Request>

  function Actions(c: Config, r: Request): seq<Action> {
    match r
    case MovePrimary(from, to) =>
      [Action(from, from, DowngradeToSecondary), Action(to, to, UpgradeToPrimary)]
    case CopyPrimary(from, to) =>
      [Action(from, to, AddSecondaryForLb), Action(from, from, DowngradeToSecondary),
       Action(to, to, UpgradeToPrimary), Action(to, from, Remove)]
    case CopySecondary(from, to) =>
      [Action(c.primary, to, AddSecondaryForLb), Action(c.primary, from, Remove)]
  }

  /** The test the load balancer makes before it sends an action to a server. */
  predicate ActionValid(c: Config, a: Action, n: nat) {
    match a.kind
    case UpgradeToPrimary => a.node == a.target && c.primary == 0 && a.node in c.secondaries
    case AddSecondaryForLb => c.primary == a.target != 0 && a.node !in c.secondaries && 1 <= a.node <= n
    case Remove => c.primary == a.target != 0 && IsMember(c, a.node)
    case DowngradeToSecondary => a.target == a.node && c.primary == a.target != 0
  }

  function Without(s: seq<nat>, x: nat): (r: seq<nat>)
    ensures forall y :: y in r ==> y in s
    ensures forall y :: y in s && y != x ==> y in r
    ensures x in s ==> |r| == |s| - 1
    ensures Distinct(s) ==> Distinct(r) && x !in r
  {
    if s == [] then [] else if s[0] == x then s[1..]
    else
      assert Distinct(s) ==> Distinct(s[1..]) && s[0] !in s[1..];
      var r := Without(s[1..], x);
      assert Distinct(s) ==> s[0] !in r;
      [s[0]] + r
  }

  function ApplyAction(c: Config, a: Action): Config {
    match a.kind
    case UpgradeToPrimary => c.(primary := a.node, secondaries := Without(c.secondaries, a.node))
    case AddSecondaryForLb => c.(secondaries := c.secondaries + [a.node])
    case Remove => if a.node == c.primary then c.(primary := 0)
                   else c.(secondaries := Without(c.secondaries, a.node))
    case DowngradeToSecondary => c.(primary := 0, secondaries := c.secondaries + [c.primary])
  }

  /** Between two actions a partition may be without a primary. */
  predicate WellFormed(c: Config, n: nat) {
    && c.primary <= n && c.primary !in c.secondaries && Distinct(c.secondaries)
    && forall s :: s in c.secondaries ==> 1 <= s <= n
  }

  /** An accepted action adds or removes its node, or only changes roles. It keeps the configuration well formed, unless
      it adds the primary as a secondary, which the test does not rule out. */
  lemma AcceptedActionsAreSound(c: Config, a: Action, n: nat)
    requires WellFormed(c, n) && ActionValid(c, a, n)
    ensures WellFormed(ApplyAction(c, a), n) <==> !(a.kind == AddSecondaryForLb && a.node == c.primary)
    ensures forall s :: 1 <= s <= n ==>
              (IsMember(ApplyAction(c, a), s) <==>
               match a.kind
               case AddSecondaryForLb => s == a.node || IsMember(c, s)
               case Remove => s != a.node && IsMember(c, s)
               case _ => IsMember(c, s))
  {
    var d := ApplyAction(c, a);
    assert a.kind == DowngradeToSecondary || a.kind == AddSecondaryForLb ==>
             forall s :: s in d.secondaries <==> s in c.secondaries || s == a.node;
    if a.kind == AddSecondaryForLb && a.node == c.primary {
      assert d.secondaries[|c.secondaries|] == d.primary;
    }
  }

  /** Runs the actions in turn; None as soon as one of them is refused. */
  function RunActions(c: Config, acts: seq<Action>, n: nat): Option<Config>
    decreases |acts|
  {
    if acts == [] then Some(c)
    else if !ActionValid(c, acts[0], n) then None
    else RunActions(ApplyAction(c, acts[0]), acts[1..], n)
  }

  /** When a request makes sense for a configuration. */
  predicate RequestValid(c: Config, r: Request, n: nat) {
    match r
    case MovePrimary(from, to) => c.primary == from && to in c.secondaries
    case CopyPrimary(from, to) => c.primary == from && 1 <= to <= n && !IsMember(c, to)
    case CopySecondary(from, to) => from in c.secondaries && 1 <= to <= n && !IsMember(c, to)
  }

  function Executed(c: Config, r: Request, n: nat): Config {
    match RunActions(c, Actions(c, r), n)
    case Some(d) => d
    case None => c
  }

  /** The partition ends healthy with as many replicas as before: the roles have moved and nothing else has
      changed. */
  ghost predicate Carried(c: Config, r: Request, n: nat, d: Config) {
    && ValidConfig(d, n) && |d.secondaries| == |c.secondaries| && d.disk == c.disk
    && d.primary == (if r.CopySecondary? then c.primary else r.to)
    && forall s :: IsMember(d, s) <==>
         if r.MovePrimary? then IsMember(c, s) else s == r.to || (IsMember(c, s) && s != r.from)
  }

  lemma MoveRuns(c: Config, r: Request, n: nat)
    requires ValidConfig(c, n) && RequestValid(c, r, n) && r.MovePrimary?
    ensures RunActions(c, Actions(c, r), n) == Some(Executed(c, r, n)) && Carried(c, r, n, Executed(c, r, n))
  {
    RunTwo(c, Actions(c, r), n);
  }

  lemma CopySecondaryRuns(c: Config, r: Request, n: nat)
    requires ValidConfig(c, n) && RequestValid(c, r, n) && r.CopySecondary?
    ensures RunActions(c, Actions(c, r), n) == Some(Executed(c, r, n)) && Carried(c, r, n, Executed(c, r, n))
  {
    var acts := Actions(c, r);
    assert ApplyAction(c, acts[0]).secondaries == c.secondaries + [r.to];
    RunTwo(c, acts, n);
  }

  lemma CopyPrimaryRuns(c: Config, r: Request, n: nat)
    requires ValidConfig(c, n) && RequestValid(c, r, n) && r.CopyPrimary?
    ensures RunActions(c, Actions(c, r), n) == Some(Executed(c, r, n)) && Carried(c, r, n, Executed(c, r, n))
  {
    var acts := Actions(c, r);
    var c1 := ApplyAction(c, acts[0]);
    var c2 := ApplyAction(c1, acts[1]);
    assert c1.secondaries == c.secondaries + [r.to];
    assert c2.secondaries == c.secondaries + [r.to, r.from];
    assert RunActions(c, acts, n) == RunActions(c1, acts[1..], n) == RunActions(c2, acts[2..], n) by {
      assert acts[1..][1..] == acts[2..];
    }
    RunTwo(c2, acts[2..], n);
  }

  /** Every action of a valid request is accepted in its turn, and the request is carried out. */
  lemma RequestRuns(c: Config, r: Request, n: nat)
    requires ValidConfig(c, n) && RequestValid(c, r, n)
    ensures RunActions(c, Actions(c, r), n) == Some(Executed(c, r, n)) && Carried(c, r, n, Executed(c, r, n))
  {
    match r
    case MovePrimary(_, _) => MoveRuns(c, r, n);
    case CopyPrimary(_, _) => CopyPrimaryRuns(c, r, n);
    case CopySecondary(_, _) => CopySecondaryRuns(c, r, n);
  }

  lemma RunTwo(c: Config, acts: seq<Action>, n: nat)
    requires |acts| == 2 && ActionValid(c, acts[0], n) && ActionValid(ApplyAction(c, acts[0]), acts[1], n)
    ensures RunActions(c, acts, n) == Some(ApplyAction(ApplyAction(c, acts[0]), acts[1]))
  {
    var c1 := ApplyAction(c, acts[0]);
    assert RunActions(c1, acts[1..], n) == RunActions(ApplyAction(c1, acts[1]), acts[1..][1..], n);
  }

  // ---- the view of one app ----------------------------------------------------------------

  /** One app on `n` alive servers. */
  datatype View = View(n: nat, configs: seq<Config>)

  /** The balancer runs only on more than two servers and when every partition is healthy
      (src/meta/server_state.cpp:2450-2455), so each partition has a primary. */
  predicate ValidView(v: View) {
    && v.n > 2 && |v.configs| <= INT_MAX
    && forall i :: 0 <= i < |v.configs| ==> ValidConfig(v.configs[i], v.n)
  }

  ghost predicate ValidPlan(v: View, plan: Plan) {
    forall i :: i in plan ==> i < |v.configs| && RequestValid(v.configs[i], plan[i], v.n)
  }

  function ExecutedAt(c: Config, plan: Plan, i: nat, n: nat): Config {
    if i in plan then Executed(c, plan[i], n) else c
  }

  function ExecuteConfigs(cs: seq<Config>, plan: Plan, n: nat): (r: seq<Config>)
    ensures |r| == |cs| && forall i :: 0 <= i < |cs| ==> r[i] == ExecutedAt(cs[i], plan, i, n)
  {
    if cs == [] then [] else
      var k := |cs| - 1;
      ExecuteConfigs(cs[..k], plan, n) + [ExecutedAt(cs[k], plan, k, n)]
  }

  /** The view once every planned request has been executed. */
  function ExecutePlan(v: View, plan: Plan): View {
    v.(configs := ExecuteConfigs(v.configs, plan, v.n))
  }

  lemma ExecuteKeepsValid(v: View, plan: Plan)
    requires ValidView(v) && ValidPlan(v, plan)
    ensures ValidView(ExecutePlan(v, plan))
  {
    forall i | 0 <= i < |v.configs| ensures ValidConfig(ExecutePlan(v, plan).configs[i], v.n) {
      if i in plan {
        RequestRuns(v.configs[i], plan[i], v.n);
      }
    }
  }

  /** The servers report the disks of their replicas: `tag` by partition and server. */
  function Recollected(v: View, tag: (nat, nat) -> string): (w: View)
    ensures w.n == v.n && |w.configs| == |v.configs|
    ensures forall i :: 0 <= i < |v.configs| ==>
              && w.configs[i].primary == v.configs[i].primary && w.configs[i].secondaries == v.configs[i].secondaries
              && forall s :: IsMember(v.configs[i], s) ==> s in w.configs[i].disk
  {
    v.(configs := seq(|v.configs|, i requires 0 <= i < |v.configs| =>
      v.configs[i].(disk := map s | s in [v.configs[i].primary] + v.configs[i].secondaries :: tag(i, s))))
  }

  lemma ExecuteNothing(v: View)
    ensures ExecutePlan(v, map[]) == v
  {}

  lemma ExecuteOneMore(v: View, plan: Plan, i: nat, r: Request)
    requires i < |v.configs| && i !in plan
    ensures ExecutePlan(v, plan[i := r]).configs ==
            ExecutePlan(v, plan).configs[i := Executed(v.configs[i], r, v.n)]
  {}

  /** The properties of a configuration that the balancer counts. */
  datatype Test =
    | PrimaryAt(s: nat)
    | ReplicaAt(s: nat)
    | MovableTo(from: nat, to: nat)
    | OnDisk(s: nat, onlyPrimary: bool, tag: string)

  predicate ServedBy(c: Config, s: nat, onlyPrimary: bool) {
    c.primary == s || (!onlyPrimary && s in c.secondaries)
  }

  predicate Holds(t: Test, c: Config) {
    match t
    case PrimaryAt(s) => c.primary == s
    case ReplicaAt(s) => IsMember(c, s)
    case MovableTo(from, to) => c.primary == from && to in c.secondaries
    case OnDisk(s, onlyPrimary, tag) => ServedBy(c, s, onlyPrimary) && s in c.disk && c.disk[s] == tag
  }

  function Count(cs: seq<Config>, t: Test): (n: nat)
    ensures n <= |cs|
  {
    if cs == [] then 0
    else Count(cs[..|cs| - 1], t) + if Holds(t, cs[|cs| - 1]) then 1 else 0
  }

  lemma {:induction false} CountUpdate(cs: seq<Config>, i: nat, c: Config, t: Test)
    requires i < |cs|
    ensures Count(cs[i := c], t) + (if Holds(t, cs[i]) then 1 else 0) == Count(cs, t) + if Holds(t, c) then 1 else 0
  {
    var k := |cs| - 1;
    if i == k {
      assert cs[i := c][..k] == cs[..k];
    } else {
      assert cs[i := c][..k] == cs[..k][i := c];
      CountUpdate(cs[..k], i, c, t);
    }
  }

  lemma {:induction false} CountWitness(cs: seq<Config>, t: Test) returns (i: nat)
    requires Count(cs, t) > 0
    ensures i < |cs| && Holds(t, cs[i])
  {
    i := |cs| - 1;
    if !Holds(t, cs[i]) {
      i := CountWitness(cs[..i], t);
    }
  }

  lemma {:induction false} CountNone(cs: seq<Config>, t: Test)
    ensures Count(cs, t) == 0 <==> forall i :: 0 <= i < |cs| ==> !Holds(t, cs[i])
  {
    if cs != [] {
      CountNone(cs[..|cs| - 1], t);
      assert forall i :: 0 <= i < |cs| - 1 ==> cs[i] == cs[..|cs| - 1][i];
    }
  }

  lemma {:induction false} CountSame(cs: seq<Config>, ds: seq<Config>, t: Test)
    requires |cs| == |ds| && forall i :: 0 <= i < |cs| ==> Holds(t, cs[i]) == Holds(t, ds[i])
    ensures Count(cs, t) == Count(ds, t)
  {
    if cs != [] {
      var k := |cs| - 1;
      CountSame(cs[..k], ds[..k], t);
    }
  }

  lemma CountPrefix(cs: seq<Config>, k: nat, t: Test)
    requires k < |cs|
    ensures Count(cs[..k + 1], t) == Count(cs[..k], t) + if Holds(t, cs[k]) then 1 else 0
  {
    assert cs[..k + 1][..k] == cs[..k];
  }

  /** node_state::primary_count and partition_count for this app. */
  function Primaries(v: View, s: nat): nat {
    Count(v.configs, PrimaryAt(s))
  }

  function Replicas(v: View, s: nat): nat {
    Count(v.configs, ReplicaAt(s))
  }

  /** How many primaries of `from` have a secondary on `to`. */
  function Movable(v: View, from: nat, to: nat): nat {
    Count(v.configs, MovableTo(from, to))
  }

  /** The two loads that are balanced: primaries, or all replicas. */
  function Amount(v: View, primaries: bool, s: nat): nat {
    if primaries then Primaries(v, s) else Replicas(v, s)
  }

  /** Load vectors are indexed by server id; entries 0 and n + 1 are unused. */
  ghost predicate LoadIs(v: View, primaries: bool, load: seq<int>) {
    |load| == v.n + 2 && forall s :: 1 <= s <= v.n ==> load[s] == Amount(v, primaries, s)
  }

  /** The loop that fills future_primaries (future_partitions). */
  method CountLoads(v: View, primaries: bool) returns (load: seq<int>)
    ensures LoadIs(v, primaries, load)
  {
    load := seq(v.n + 2, _ => 0);
    for s := 1 to v.n + 1
      invariant |load| == v.n + 2 && forall k :: 1 <= k < s ==> load[k] == Amount(v, primaries, k)
    {
      load := load[s := Amount(v, primaries, s)];
    }
  }

  /** How unbalanced the app is: the sum of the squared loads of servers 1..k. */
  ghost function Spread(v: View, primaries: bool, k: nat): nat {
    if k == 0 then 0 else Spread(v, primaries, k - 1) + Square(Amount(v, primaries, k))
  }

  lemma {:induction false} SpreadIsSquares(v: View, primaries: bool, load: seq<int>, k: nat)
    requires LoadIs(v, primaries, load) && k <= v.n
    ensures Spread(v, primaries, k) == Squares(load, k)
  {
    if k > 0 {
      SpreadIsSquares(v, primaries, load, k - 1);
    }
  }

  /** Each partition has one primary, so the primary counts add up to the number of partitions. */
  lemma {:induction false} PrimariesAddUp(v: View, load: seq<int>)
    requires forall i :: 0 <= i < |v.configs| ==> 1 <= v.configs[i].primary <= v.n
    requires LoadIs(v, true, load)
    ensures Total(load, v.n) == |v.configs|
    decreases |v.configs|
  {
    var k := |v.configs| - 1;
    if k < 0 {
      TotalAtLeast(load, v.n, 0);
      TotalAtMost(load, v.n, 0);
    } else {
      var p := v.configs[k].primary;
      PrimariesAddUp(v.(configs := v.configs[..k]), load[p := load[p] - 1]);
      TotalUpdate(load, v.n, p, load[p] - 1);
    }
  }

  /** The request changes this load at all. */
  predicate Shifts(r: Request, primaries: bool) {
    if primaries then !r.CopySecondary? else !r.MovePrimary?
  }

  lemma AmountOneMore(v: View, primaries: bool, plan: Plan, i: nat, r: Request, s: nat)
    requires ValidView(v) && i < |v.configs| && i !in plan
    requires RequestValid(v.configs[i], r, v.n) && Shifts(r, primaries)
    ensures Amount(ExecutePlan(v, plan[i := r]), primaries, s) + (if s == r.from then 1 else 0) ==
            Amount(ExecutePlan(v, plan), primaries, s) + (if s == r.to then 1 else 0)
  {
    ExecuteOneMore(v, plan, i, r);
    RequestRuns(v.configs[i], r, v.n);
    CountUpdate(ExecutePlan(v, plan).configs, i, Executed(v.configs[i], r, v.n),
                if primaries then PrimaryAt(s) else ReplicaAt(s));
  }

  function Shifted(load: seq<int>, from: nat, to: nat): seq<int>
    requires from < |load| && to < |load|
  {
    load[from := load[from] - 1][to := load[to] + 1]
  }

  lemma EndsInRange(c: Config, r: Request, n: nat)
    requires ValidConfig(c, n) && RequestValid(c, r, n)
    ensures r.from != r.to && 1 <= r.from <= n && 1 <= r.to <= n
  {}

  lemma LoadIsShifted(w: View, primaries: bool, load: seq<int>, from: nat, to: nat)
    requires |load| == w.n + 2 && from != to && 1 <= from <= w.n && 1 <= to <= w.n
    requires forall s :: 1 <= s <= w.n ==>
               Amount(w, primaries, s) + (if s == from then 1 else 0) == load[s] + if s == to then 1 else 0
    ensures LoadIs(w, primaries, Shifted(load, from, to))
  {}

  /** Executing one more request shifts one primary (one replica) from its source to its target. */
  lemma LoadOneMore(v: View, primaries: bool, plan: Plan, i: nat, r: Request, load: seq<int>)
    requires ValidView(v) && i < |v.configs| && i !in plan
    requires RequestValid(v.configs[i], r, v.n) && Shifts(r, primaries)
    requires LoadIs(ExecutePlan(v, plan), primaries, load)
    ensures r.from != r.to && 1 <= r.from <= v.n && 1 <= r.to <= v.n
    ensures LoadIs(ExecutePlan(v, plan[i := r]), primaries, Shifted(load, r.from, r.to))
  {
    EndsInRange(v.configs[i], r, v.n);
    var w := ExecutePlan(v, plan[i := r]);
    forall s | 1 <= s <= w.n
      ensures Amount(w, primaries, s) + (if s == r.from then 1 else 0) == load[s] + if s == r.to then 1 else 0
    {
      AmountOneMore(v, primaries, plan, i, r, s);
    }
    LoadIsShifted(w, primaries, load, r.from, r.to);
  }

  // ---- the ordered queue of servers -------------------------------------------------------

  /** The order of the balancer's pri_queue: by load, then by id. */
  predicate Before(load: seq<int>, a: nat, b: nat)
    requires a < |load| && b < |load|
  {
    if load[a] != load[b] then load[a] < load[b] else a < b
  }

  predicate IsFirst(load: seq<int>, q: set<nat>, m: nat)
    requires forall j :: j in q ==> j < |load|
  {
    m in q && forall j :: j in q ==> j == m || Before(load, m, j)
  }

  predicate IsLast(load: seq<int>, q: set<nat>, m: nat)
    requires forall j :: j in q ==> j < |load|
  {
    m in q && forall j :: j in q ==> j == m || Before(load, j, m)
  }

  /** The two ends of the queue: *begin() and *rbegin(). */
  method Ends(q: set<nat>, load: seq<int>) returns (first: nat, last: nat)
    requires q != {} && forall j :: j in q ==> j < |load|
    ensures IsFirst(load, q, first) && IsLast(load, q, last)
    ensures forall j :: j in q ==> load[first] <= load[j] <= load[last]
    ensures forall j :: j in q ==> (load[j] == load[first] ==> first <= j) && (load[j] == load[last] ==> j <= last)
  {
    first :| first in q;
    last := first;
    var seen, rest := {first}, q - {first};
    while rest != {}
      invariant seen + rest == q
      invariant IsFirst(load, seen, first) && IsLast(load, seen, last)
      decreases rest
    {
      var j :| j in rest;
      if Before(load, j, first) {
        first := j;
      } else if Before(load, last, j) {
        last := j;
      }
      seen, rest := seen + {j}, rest - {j};
    }
  }

  function Servers(n: nat): (q: set<nat>)
    ensures forall s :: s in q <==> 1 <= s <= n
  {
    if n == 0 then {} else Servers(n - 1) + {n}
  }

  // ---- disk loads ---------------------------------------------------------------------------

  /** How many replicas each disk of one server holds; a missing tag means 0. */
  type DiskLoad = map<string, int>

  function LoadOf(load: DiskLoad, tag: string): int {
    if tag in load then load[tag] else 0
  }

  function DiskReplicas(v: View, s: nat, onlyPrimary: bool, tag: string): nat {
    Count(v.configs, OnDisk(s, onlyPrimary, tag))
  }

  /** The primaries of server s per disk. */
  ghost predicate DiskAgrees(w: View, s: nat, load: DiskLoad) {
    forall tag :: LoadOf(load, tag) == DiskReplicas(w, s, true, tag)
  }

  /** One replica less on disk `tag` of server s. */
  function TakeFromDisk(loads: seq<DiskLoad>, s: nat, tag: string): seq<DiskLoad>
    requires s < |loads|
  {
    loads[s := loads[s][tag := LoadOf(loads[s], tag) - 1]]
  }

  /** All replica infos of server `s` have been collected. */
  predicate Collected(v: View, s: nat, onlyPrimary: bool) {
    forall i :: 0 <= i < |v.configs| && ServedBy(v.configs[i], s, onlyPrimary) ==> s in v.configs[i].disk
  }

  /** Fails exactly when some replica info is missing; otherwise counts the replicas per disk. */
  method CalcDiskLoad(v: View, s: nat, onlyPrimary: bool) returns (ok: bool, load: DiskLoad)
    ensures ok <==> Collected(v, s, onlyPrimary)
    ensures ok ==> forall tag :: LoadOf(load, tag) == DiskReplicas(v, s, onlyPrimary, tag)
  {
    load := map[];
    for i := 0 to |v.configs|
      invariant forall k :: 0 <= k < i && ServedBy(v.configs[k], s, onlyPrimary) ==> s in v.configs[k].disk
      invariant forall tag :: LoadOf(load, tag) == Count(v.configs[..i], OnDisk(s, onlyPrimary, tag))
    {
      var c := v.configs[i];
      forall tag: string
        ensures Count(v.configs[..i + 1], OnDisk(s, onlyPrimary, tag)) ==
                Count(v.configs[..i], OnDisk(s, onlyPrimary, tag)) + if Holds(OnDisk(s, onlyPrimary, tag), c) then 1 else 0
      {
        CountPrefix(v.configs, i, OnDisk(s, onlyPrimary, tag));
      }
      if ServedBy(c, s, onlyPrimary) {
        if s !in c.disk {
          return false, load;
        }
        load := load[c.disk[s] := LoadOf(load, c.disk[s]) + 1];
      }
    }
    assert v.configs[..|v.configs|] == v.configs;
    ok := true;
  }

  // ---- decisions in the order they are made ---------------------------------------------------

  datatype Decision = Decision(i: nat, request: Request)

  ghost function PlanOf(steps: seq<Decision>): Plan {
    if steps == [] then map[]
    else PlanOf(steps[..|steps| - 1])[steps[|steps| - 1].i := steps[|steps| - 1].request]
  }

  lemma PlanOfOneMore(steps: seq<Decision>, d: Decision)
    ensures PlanOf(steps + [d]) == PlanOf(steps)[d.i := d.request]
  {}
}
