/** The client's cache of partition configurations (partition_resolver_simple.cpp): replies to config queries
    add to it, failed accesses take from it. */
module ConfigCache {
  import opened Options

  /** Address 0 is the invalid one. */
  datatype Configuration = Configuration(ballot: int, primary: nat, lastDrops: seq<nat>)

  datatype AccessError = CapacityExceeded | NotEnoughMember | OperationDisabled | Busy | OtherError

  type Cache = map<nat, Configuration>

  /** A configuration in a reply, or an access failure on a partition, if its index is known. */
  datatype Change = Learn(p: nat, config: Configuration) | Failed(index: Option<nat>, err: AccessError)

  predicate Forgets(c: Change, p: nat) {
    c.Failed? && c.index == Some(p) && c.err == OtherError
  }

  function Learned(cache: Cache, stateful: bool, p: nat, config: Configuration): Cache {
    if p !in cache || !stateful || cache[p].ballot < config.ballot then cache[p := config] else cache
  }

  function Changed(cache: Cache, stateful: bool, c: Change): Cache {
    match c
    case Learn(p, config) => Learned(cache, stateful, p, config)
    case Failed(None, _) => cache
    case Failed(Some(p), err) => if err == OtherError then cache - {p} else cache
  }

  function CacheAfter(stateful: bool, changes: seq<Change>): Cache {
    if changes == [] then map[]
    else Changed(CacheAfter(stateful, changes[..|changes| - 1]), stateful, changes[|changes| - 1])
  }

  /** Change i taught the cache something about partition p that no later change made it forget. */
  ghost predicate Remembered(changes: seq<Change>, p: nat, i: nat) {
    && i < |changes| && changes[i].Learn? && changes[i].p == p
    && forall j :: i < j < |changes| ==> !Forgets(changes[j], p)
  }

  /** Change i is the first with the highest ballot among those remembered. */
  ghost predicate Freshest(changes: seq<Change>, p: nat, i: nat) {
    && Remembered(changes, p, i)
    && forall j: nat :: Remembered(changes, p, j) ==>
         && changes[j].config.ballot <= changes[i].config.ballot
         && (j < i ==> changes[j].config.ballot < changes[i].config.ballot)
  }

  /** One more change: what was remembered before still is, unless the change forgets. */
  lemma RememberedStep(changes: seq<Change>, p: nat)
    requires changes != []
    ensures var n := |changes| - 1;
            forall i: nat :: Remembered(changes, p, i) <==>
              if i == n then changes[n].Learn? && changes[n].p == p
              else Remembered(changes[..n], p, i) && !Forgets(changes[n], p)
  {}

  lemma {:induction false} FreshestChange(changes: seq<Change>, p: nat) returns (i: nat)
    ensures p in CacheAfter(true, changes) ==>
              Freshest(changes, p, i) && CacheAfter(true, changes)[p] == changes[i].config
    ensures p !in CacheAfter(true, changes) ==> forall j: nat :: !Remembered(changes, p, j)
  {
    i := 0;
    if changes != [] {
      var n := |changes| - 1;
      var before := CacheAfter(true, changes[..n]);
      i := FreshestChange(changes[..n], p);
      RememberedStep(changes, p);
      var c := changes[n];
      if c.Learn? && c.p == p && (p !in before || before[p].ballot < c.config.ballot) {
        i := n;
      }
    }
  }

  /** The cached configuration of a partition of a stateful app is the first one with the highest ballot since
      the partition was last forgotten; nothing is cached exactly when there is none. */
  lemma CacheIsFreshest(changes: seq<Change>, p: nat)
    ensures p in CacheAfter(true, changes) <==> exists i: nat :: Freshest(changes, p, i)
    ensures forall i: nat :: Freshest(changes, p, i) ==> CacheAfter(true, changes)[p] == changes[i].config
  {
    var k := FreshestChange(changes, p);
    forall i: nat | Freshest(changes, p, i)
      ensures p in CacheAfter(true, changes) && CacheAfter(true, changes)[p] == changes[i].config
    {
      assert Remembered(changes, p, i);
    }
  }

  /** Change i is the last of those remembered. */
  ghost predicate Latest(changes: seq<Change>, p: nat, i: nat) {
    Remembered(changes, p, i) && forall j: nat :: Remembered(changes, p, j) ==> j <= i
  }

  lemma {:induction false} LatestChange(changes: seq<Change>, p: nat) returns (i: nat)
    ensures p in CacheAfter(false, changes) ==>
              Latest(changes, p, i) && CacheAfter(false, changes)[p] == changes[i].config
    ensures p !in CacheAfter(false, changes) ==> forall j: nat :: !Remembered(changes, p, j)
  {
    i := 0;
    if changes != [] {
      var n := |changes| - 1;
      i := LatestChange(changes[..n], p);
      RememberedStep(changes, p);
      if changes[n].Learn? && changes[n].p == p {
        i := n;
      }
    }
  }

  /** The cached configuration of a partition of a stateless app is the last one since the partition was last
      forgotten, whatever the ballots. */
  lemma CacheIsLatest(changes: seq<Change>, p: nat)
    ensures p in CacheAfter(false, changes) <==> exists i: nat :: Latest(changes, p, i)
    ensures forall i: nat :: Latest(changes, p, i) ==> CacheAfter(false, changes)[p] == changes[i].config
  {
    var k := LatestChange(changes, p);
    forall i: nat | Latest(changes, p, i)
      ensures p in CacheAfter(false, changes) && CacheAfter(false, changes)[p] == changes[i].config
    {
      assert Remembered(changes, p, i);
    }
  }

  /** Between two invalidations the cached ballot never goes down. */
  lemma BallotNeverFalls(changes: seq<Change>, m: nat, p: nat)
    requires m <= |changes| && p in CacheAfter(true, changes[..m])
    requires forall j :: m <= j < |changes| ==> !Forgets(changes[j], p)
    ensures p in CacheAfter(true, changes)
    ensures CacheAfter(true, changes[..m])[p].ballot <= CacheAfter(true, changes)[p].ballot
  {
    var i := FreshestChange(changes[..m], p);
    assert Remembered(changes, p, i) by {
      assert forall j :: 0 <= j < m ==> changes[j] == changes[..m][j];
    }
    var k := FreshestChange(changes, p);
  }
}
