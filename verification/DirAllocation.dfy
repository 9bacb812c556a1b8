/** How a replica server spreads its replicas over data directories (fs_manager.cpp). */
module DirAllocation {

  datatype Gpid = Gpid(app: nat, index: nat)

  /** The replicas held in one directory, by app. */
  type DirNode = map<nat, set<Gpid>>

  ghost predicate ValidDir(d: DirNode) {
    forall a, p :: a in d && p in d[a] ==> p.app == a
  }

  predicate Has(d: DirNode, p: Gpid) {
    p.app in d && p in d[p.app]
  }

  function AppCount(d: DirNode, app: nat): nat {
    if app in d then |d[app]| else 0
  }

  /** All replicas in the directory. */
  ghost function Held(d: DirNode): set<Gpid> {
    set a, p | a in d && p in d[a] :: p
  }

  function Place(d: DirNode, p: Gpid): DirNode {
    d[p.app := (if p.app in d then d[p.app] else {}) + {p}]
  }

  function Removed(d: DirNode, p: Gpid): DirNode {
    if p.app in d then d[p.app := d[p.app] - {p}] else d
  }

  // ---- choosing a directory --------------------------------------------------------------------------

  /** Directory i comes before directory j: fewer replicas of the app, or as many and fewer in all. */
  ghost predicate Before(dirs: seq<DirNode>, app: nat, i: nat, j: nat)
    requires i < |dirs| && j < |dirs|
  {
    || AppCount(dirs[i], app) < AppCount(dirs[j], app)
    || (AppCount(dirs[i], app) == AppCount(dirs[j], app) && |Held(dirs[i])| < |Held(dirs[j])|)
  }

  /** The first of the lowest directories. */
  ghost predicate IsChoice(dirs: seq<DirNode>, app: nat, k: nat) {
    && k < |dirs|
    && (forall i :: 0 <= i < |dirs| ==> !Before(dirs, app, i, k))
    && (forall i :: 0 <= i < k ==> Before(dirs, app, k, i))
  }

  /** replicas_count over all apps. */
  method ReplicasCount(d: DirNode) returns (sum: nat)
    requires ValidDir(d)
    ensures sum == |Held(d)|
  {
    sum := 0;
    var left := d.Keys;
    ghost var counted: set<Gpid> := {};
    while left != {}
      invariant left <= d.Keys && sum == |counted|
      invariant forall p :: p in counted <==> p.app in d.Keys - left && p in d[p.app]
      decreases |left|
    {
      var a :| a in left;
      assert counted !! d[a];
      sum := sum + |d[a]|;
      counted := counted + d[a];
      left := left - {a};
    }
    assert counted == Held(d);
  }

  /** allocate_dir: the loop that finds the directory. */
  method SelectDir(dirs: seq<DirNode>, app: nat) returns (selected: nat)
    requires dirs != [] && forall i :: 0 <= i < |dirs| ==> ValidDir(dirs[i])
    ensures IsChoice(dirs, app, selected)
    ensures forall i :: 0 <= i < |dirs| ==>
              && AppCount(dirs[selected], app) <= AppCount(dirs[i], app)
              && (AppCount(dirs[selected], app) == AppCount(dirs[i], app) ==> |Held(dirs[selected])| <= |Held(dirs[i])|)
  {
    selected := 0;
    var leastApp := AppCount(dirs[0], app);
    var leastTotal := ReplicasCount(dirs[0]);
    for n := 1 to |dirs|
      invariant selected < n && leastApp == AppCount(dirs[selected], app) && leastTotal == |Held(dirs[selected])|
      invariant forall i :: 0 <= i < n ==> !Before(dirs, app, i, selected)
      invariant forall i :: 0 <= i < selected ==> Before(dirs, app, selected, i)
    {
      var appReplicas := AppCount(dirs[n], app);
      var totalReplicas := ReplicasCount(dirs[n]);
      forall i | 0 <= i < n && Before(dirs, app, n, selected)
        ensures !Before(dirs, app, i, n) && Before(dirs, app, n, i)
      {
        assert !Before(dirs, app, i, selected);
      }
      if leastApp > appReplicas {
        leastApp, leastTotal, selected := appReplicas, totalReplicas, n;
      } else if leastApp == appReplicas && leastTotal > totalReplicas {
        leastTotal, selected := totalReplicas, n;
      }
    }
    forall i | 0 <= i < |dirs|
      ensures AppCount(dirs[selected], app) <= AppCount(dirs[i], app)
      ensures AppCount(dirs[selected], app) == AppCount(dirs[i], app) ==> |Held(dirs[selected])| <= |Held(dirs[i])|
    {
      assert !Before(dirs, app, i, selected);
    }
  }

  // ---- laws ------------------------------------------------------------------------------------------

  /** No replica is in two directories. */
  ghost predicate Separate(dirs: seq<DirNode>) {
    && (forall i :: 0 <= i < |dirs| ==> ValidDir(dirs[i]))
    && (forall i, j, p :: 0 <= i < j < |dirs| && Has(dirs[i], p) ==> !Has(dirs[j], p))
  }

  ghost predicate Nowhere(dirs: seq<DirNode>, p: Gpid) {
    forall i :: 0 <= i < |dirs| ==> !Has(dirs[i], p)
  }

  /** The app's counts differ by at most one. */
  ghost predicate Balanced(dirs: seq<DirNode>, app: nat) {
    forall i, j :: 0 <= i < |dirs| && 0 <= j < |dirs| ==> AppCount(dirs[i], app) <= AppCount(dirs[j], app) + 1
  }

  lemma PlaceCounts(d: DirNode, p: Gpid, app: nat)
    requires !Has(d, p)
    ensures AppCount(Place(d, p), app) == AppCount(d, app) + if app == p.app then 1 else 0
  {}

  lemma PlaceKeepsSeparate(dirs: seq<DirNode>, p: Gpid, k: nat)
    requires Separate(dirs) && Nowhere(dirs, p) && k < |dirs|
    ensures Separate(dirs[k := Place(dirs[k], p)])
    ensures forall q, i :: 0 <= i < |dirs| ==>
              (Has(dirs[k := Place(dirs[k], p)][i], q) <==> Has(dirs[i], q) || (q == p && i == k))
  {}

  lemma PlaceKeepsBalance(dirs: seq<DirNode>, p: Gpid, k: nat, app: nat)
    requires Nowhere(dirs, p) && IsChoice(dirs, p.app, k) && Balanced(dirs, app)
    ensures Balanced(dirs[k := Place(dirs[k], p)], app)
  {
    PlaceCounts(dirs[k], p, app);
    forall i | 0 <= i < |dirs| ensures AppCount(dirs[k], p.app) <= AppCount(dirs[i], p.app) {
      assert !Before(dirs, p.app, i, k);
    }
  }

  /** Replicas of many apps are given directories one after the other. */
  ghost predicate Allocates(dirs: seq<DirNode>, pids: seq<Gpid>, after: seq<DirNode>)
    decreases |pids|
  {
    if pids == [] then dirs == after
    else exists k: nat :: AllocatesTo(dirs, pids[0], k) && Allocates(dirs[k := Place(dirs[k], pids[0])], pids[1..], after)
  }

  ghost predicate AllocatesTo(dirs: seq<DirNode>, p: Gpid, k: nat) {
    k < |dirs| && Nowhere(dirs, p) && IsChoice(dirs, p.app, k)
  }

  lemma {:induction false} AllocationKeeps(dirs: seq<DirNode>, pids: seq<Gpid>, after: seq<DirNode>)
    requires Allocates(dirs, pids, after) && Separate(dirs) && forall app :: Balanced(dirs, app)
    ensures |after| == |dirs| && Separate(after) && forall app :: Balanced(after, app)
    ensures forall p :: Nowhere(after, p) <==> Nowhere(dirs, p) && p !in pids
    decreases |pids|
  {
    if pids != [] {
      var p := pids[0];
      var k: nat :| AllocatesTo(dirs, p, k) && Allocates(dirs[k := Place(dirs[k], p)], pids[1..], after);
      var next := dirs[k := Place(dirs[k], p)];
      PlaceKeepsSeparate(dirs, p, k);
      forall app ensures Balanced(next, app) {
        PlaceKeepsBalance(dirs, p, k, app);
      }
      AllocationKeeps(next, pids[1..], after);
      NowhereAfter(dirs, p, k, pids);
    }
  }

  lemma NowhereAfter(dirs: seq<DirNode>, p: Gpid, k: nat, pids: seq<Gpid>)
    requires Separate(dirs) && Nowhere(dirs, p) && k < |dirs| && pids != [] && p == pids[0]
    ensures forall q :: Nowhere(dirs[k := Place(dirs[k], p)], q) && q !in pids[1..] <==> Nowhere(dirs, q) && q !in pids
  {
    var next := dirs[k := Place(dirs[k], p)];
    PlaceKeepsSeparate(dirs, p, k);
    forall q ensures Nowhere(next, q) && q !in pids[1..] <==> Nowhere(dirs, q) && q !in pids {
      assert pids == [p] + pids[1..];
      assert Has(next[k], p);
      assert Nowhere(dirs, q) && q != p ==> Nowhere(next, q);
      assert Nowhere(next, q) ==> forall i :: 0 <= i < |dirs| ==> !Has(next[i], q);
    }
  }

  /** From empty directories, any sequence of allocations, over any apps, leaves each app's counts within one of
      each other and each replica in exactly one directory. */
  lemma AllocationIsBalanced(n: nat, pids: seq<Gpid>, after: seq<DirNode>, p: Gpid)
    requires Allocates(seq(n, _ => map[]), pids, after)
    ensures Balanced(after, p.app)
    ensures p in pids <==> exists i :: 0 <= i < |after| && Has(after[i], p)
    ensures forall i, j :: 0 <= i < |after| && 0 <= j < |after| && Has(after[i], p) && Has(after[j], p) ==> i == j
  {
    var none: seq<DirNode> := seq(n, _ => map[]);
    AllocationKeeps(none, pids, after);
    assert Nowhere(none, p);
  }

  // ---- the manager -----------------------------------------------------------------------------------

  class FsManager {
    var dirs: seq<DirNode>

    constructor (n: nat)
      ensures dirs == seq(n, _ => map[])
    {
      dirs := seq(n, _ => map[]);
    }

    method AllocateDir(p: Gpid) returns (selected: nat)
      requires dirs != [] && Separate(dirs) && Nowhere(dirs, p)
      modifies this
      ensures AllocatesTo(old(dirs), p, selected) && dirs == old(dirs)[selected := Place(old(dirs)[selected], p)]
      ensures Separate(dirs)
    {
      selected := SelectDir(dirs, p.app);
      PlaceKeepsSeparate(dirs, p, selected);
      dirs := dirs[selected := Place(dirs[selected], p)];
    }

    /** remove_replica; the assertion is the source's. */
    method RemoveReplica(p: Gpid) returns (count: nat)
      requires Separate(dirs)
      modifies this
      ensures Separate(dirs) && Nowhere(dirs, p) && |dirs| == |old(dirs)|
      ensures count == if Nowhere(old(dirs), p) then 0 else 1
      ensures forall i, q :: 0 <= i < |dirs| && q != p ==> Has(dirs[i], q) == Has(old(dirs)[i], q)
    {
      count := 0;
      ghost var before := dirs;
      for n := 0 to |dirs|
        invariant |dirs| == |before|
        invariant forall i :: 0 <= i < |dirs| ==> dirs[i] == if i < n then Removed(before[i], p) else before[i]
        invariant count == 0 || count == 1
        invariant count == 0 <==> forall i :: 0 <= i < n ==> !Has(before[i], p)
      {
        var r := if Has(dirs[n], p) then 1 else 0;
        dirs := dirs[n := Removed(dirs[n], p)];
        assert count + r <= 1;
        count := count + r;
      }
      assert forall i, q :: 0 <= i < |dirs| ==> (Has(dirs[i], q) <==> Has(before[i], q) && q != p);
    }
  }
}
