/** The ordered, bounded list of dropped replicas that the meta server keeps per partition (meta_data.cpp,
    meta_data.h): a higher entry roughly means more data. */
module DropList {

  const INVALID_TIMESTAMP := 0
  const INVALID_BALLOT := -1
  const INVALID_DECREE := -1

  datatype Dropped = Dropped(node: nat, time: nat, ballot: int, committed: int, prepared: int)

  /** What a replica server reports about an inactive replica. */
  datatype ReplicaInfo = ReplicaInfo(ballot: int, committed: int, prepared: int)

  /** dropped_cmp */
  function Cmp(a: Dropped, b: Dropped): int {
    if a.time != b.time then if a.time < b.time then -1 else 1
    else if a.ballot != b.ballot then if a.ballot < b.ballot then -1 else 1
    else if a.committed != b.committed then if a.committed < b.committed then -1 else 1
    else if a.prepared != b.prepared then if a.prepared < b.prepared then -1 else 1
    else 0
  }

  ghost predicate Sorted(ds: seq<Dropped>) {
    forall i, j :: 0 <= i < j < |ds| ==> Cmp(ds[i], ds[j]) <= 0
  }

  ghost predicate DistinctNodes(ds: seq<Dropped>) {
    forall i, j :: 0 <= i < j < |ds| ==> ds[i].node != ds[j].node
  }

  predicate Listed(ds: seq<Dropped>, node: nat) {
    exists i :: 0 <= i < |ds| && ds[i].node == node
  }

  /** The list with entry i taken out. */
  function RemoveAt(ds: seq<Dropped>, i: nat): seq<Dropped>
    requires i < |ds|
  {
    ds[..i] + ds[i + 1..]
  }

  /** How many of the smallest entries have to go for the group to be within its bound. */
  function Excess(ds: seq<Dropped>, replicas: nat, max: nat): (k: nat)
    ensures k <= |ds|
  {
    if replicas + |ds| <= max then 0 else if replicas >= max then |ds| else replicas + |ds| - max
  }

  function Trim(ds: seq<Dropped>, replicas: nat, max: nat): seq<Dropped> {
    ds[Excess(ds, replicas, max)..]
  }

  predicate Fits(ds: seq<Dropped>, replicas: nat, max: nat) {
    replicas + |ds| <= max || ds == []
  }

  /** The position of `d`: everything before it is smaller, nothing from there on is. */
  ghost predicate IsLowerBound(ds: seq<Dropped>, d: Dropped, p: nat) {
    && p <= |ds|
    && (forall i :: 0 <= i < p ==> Cmp(ds[i], d) < 0)
    && (forall i :: p <= i < |ds| ==> Cmp(ds[i], d) >= 0)
  }

  /** The entry made from a report, with the drop time known so far. */
  function Current(time: nat, node: nat, info: ReplicaInfo): Dropped {
    Dropped(node, time, info.ballot, info.committed, info.prepared)
  }

  function InsertAt(ds: seq<Dropped>, p: nat, d: Dropped): seq<Dropped>
    requires p <= |ds|
  {
    ds[..p] + [d] + ds[p..]
  }

  /** `after` is `ds` with `d` put in its place. */
  ghost predicate Placed(ds: seq<Dropped>, d: Dropped, after: seq<Dropped>) {
    exists p: nat :: IsLowerBound(ds, d, p) && after == InsertAt(ds, p, d)
  }

  // ---- laws ------------------------------------------------------------------------------------------

  lemma InsertKeepsOrder(ds: seq<Dropped>, p: nat, d: Dropped)
    requires Sorted(ds) && IsLowerBound(ds, d, p)
    ensures Sorted(InsertAt(ds, p, d))
  {
    var all := InsertAt(ds, p, d);
    forall i, j | 0 <= i < j < |all| ensures Cmp(all[i], all[j]) <= 0 {
      assert all[i] == if i < p then ds[i] else if i == p then d else ds[i - 1];
      assert all[j] == if j < p then ds[j] else if j == p then d else ds[j - 1];
    }
  }

  lemma InsertKeepsDistinct(ds: seq<Dropped>, p: nat, d: Dropped)
    requires DistinctNodes(ds) && p <= |ds| && !Listed(ds, d.node)
    ensures DistinctNodes(InsertAt(ds, p, d))
  {}

  lemma RemoveKeeps(ds: seq<Dropped>, i: nat)
    requires DistinctNodes(ds) && Sorted(ds) && i < |ds|
    ensures DistinctNodes(RemoveAt(ds, i)) && Sorted(RemoveAt(ds, i)) && !Listed(RemoveAt(ds, i), ds[i].node)
  {}

  /** Trimming leaves the longest end of the list that fits. */
  lemma TrimIsLongest(ds: seq<Dropped>, replicas: nat, max: nat)
    ensures Fits(Trim(ds, replicas, max), replicas, max)
    ensures forall k :: 0 <= k < Excess(ds, replicas, max) ==> !Fits(ds[k..], replicas, max)
  {}

  /** What collect_drop_replica leaves of a list that fits, with `d` put in at p. */
  lemma TrimAfterInsert(ds: seq<Dropped>, p: nat, d: Dropped, replicas: nat, max: nat)
    requires Fits(ds, replicas, max) && p <= |ds|
    ensures Trim(InsertAt(ds, p, d), replicas, max) ==
            if replicas + |ds| < max then InsertAt(ds, p, d) else InsertAt(ds, p, d)[1..]
  {}

  /** The entry put in survives unless the list is full and the entry is the lowest. */
  lemma InsertedSurvives(ds: seq<Dropped>, p: nat, d: Dropped, replicas: nat, max: nat)
    requires Fits(ds, replicas, max) && IsLowerBound(ds, d, p) && !Listed(ds, d.node)
    ensures var r := Trim(InsertAt(ds, p, d), replicas, max);
            && (Listed(r, d.node) <==> replicas + |ds| < max || exists i :: 0 <= i < |ds| && Cmp(ds[i], d) < 0)
            && (if Listed(r, d.node) then d in r else r == ds)
  {
    var r := Trim(InsertAt(ds, p, d), replicas, max);
    TrimAfterInsert(ds, p, d, replicas, max);
    if replicas + |ds| < max {
      assert r[p] == d;
    } else if p > 0 {
      assert r[p - 1] == d && Cmp(ds[0], d) < 0;
    } else {
      assert r == ds;
    }
  }

  /** `a` is no better than `b`: dropped earlier, or at the same time with a lower ballot, or with the same ballot and
      fewer committed, or as many committed and at most as many prepared mutations. */
  predicate NoBetter(a: Dropped, b: Dropped) {
    || a.time < b.time
    || (a.time == b.time && a.ballot < b.ballot)
    || (a.time == b.time && a.ballot == b.ballot && a.committed < b.committed)
    || (a.time == b.time && a.ballot == b.ballot && a.committed == b.committed && a.prepared <= b.prepared)
  }

  /** Whatever is evicted from an ordered list is no better than whatever stays, and stays behind on the first of time,
      ballot, committed and prepared in which the two differ. */
  lemma EvictedAreNoBetter(ds: seq<Dropped>, replicas: nat, max: nat, i: nat, j: nat)
    requires Sorted(ds) && i < Excess(ds, replicas, max) <= j < |ds|
    ensures NoBetter(ds[i], ds[j]) && ds[j] in Trim(ds, replicas, max)
  {
    assert Cmp(ds[i], ds[j]) <= 0;
    assert ds[j] == Trim(ds, replicas, max)[j - Excess(ds, replicas, max)];
  }

  /** The order is total: entries that compare equal agree in all four. */
  lemma CmpIsOrder(a: Dropped, b: Dropped)
    ensures (Cmp(a, b) <= 0 <==> NoBetter(a, b)) && (Cmp(a, b) < 0 <==> !NoBetter(b, a))
  {}

  /** What was reported about a node is what the list says about it. */
  ghost predicate ListedAs(ds: seq<Dropped>, node: nat, info: ReplicaInfo) {
    exists i :: 0 <= i < |ds| && ds[i].node == node
                && ds[i].ballot == info.ballot && ds[i].committed == info.committed && ds[i].prepared == info.prepared
  }

  lemma TrimKeepsOrder(ds: seq<Dropped>, replicas: nat, max: nat)
    requires Sorted(ds)
    ensures Sorted(Trim(ds, replicas, max))
  {}

  /** A newly dropped replica may go last: it is not below the last entry, or becomes the only one. */
  predicate MayGoLast(ds: seq<Dropped>, d: Dropped, replicas: nat, max: nat) {
    ds == [] || Cmp(ds[|ds| - 1], d) <= 0 || (|ds| == 1 && replicas + |ds| >= max)
  }

  lemma CmpIsTransitive(a: Dropped, b: Dropped, c: Dropped)
    requires Cmp(a, b) <= 0 && Cmp(b, c) <= 0
    ensures Cmp(a, c) <= 0
  {}

  lemma AppendSorts(ds: seq<Dropped>, d: Dropped)
    requires Sorted(ds)
    ensures Sorted(ds + [d]) <==> ds == [] || Cmp(ds[|ds| - 1], d) <= 0
  {
    var all, n := ds + [d], |ds|;
    if n > 0 {
      assert all[n - 1] == ds[n - 1] && all[n] == d;
      if Cmp(ds[n - 1], d) <= 0 {
        forall i, j | 0 <= i < j < |all| ensures Cmp(all[i], all[j]) <= 0 {
          if j == n && i < n - 1 { CmpIsTransitive(ds[i], ds[n - 1], d); }
        }
      }
    }
  }

  lemma AppendKeepsOrder(ds: seq<Dropped>, d: Dropped, replicas: nat, max: nat)
    requires Sorted(ds) && Fits(ds, replicas, max)
    ensures Sorted(Trim(ds + [d], replicas, max)) <==> MayGoLast(ds, d, replicas, max)
  {
    assert ds + [d] == InsertAt(ds, |ds|, d);
    TrimAfterInsert(ds, |ds|, d, replicas, max);
    AppendSorts(ds, d);
    if ds != [] {
      assert (ds + [d])[1..] == ds[1..] + [d];
      AppendSorts(ds[1..], d);
    }
  }

  /** No entry has a drop time after t. */
  ghost predicate DroppedBy(ds: seq<Dropped>, t: nat) {
    forall i :: 0 <= i < |ds| ==> ds[i].time <= t
  }

  /** A drop later than all those so far goes last, and keeps its time the latest. */
  lemma LaterDropsGoLast(ds: seq<Dropped>, d: Dropped, lastDrop: nat, replicas: nat, max: nat)
    requires DroppedBy(ds, lastDrop)
    ensures d.time > lastDrop ==> MayGoLast(ds, d, replicas, max)
    ensures DroppedBy(Trim(ds + [d], replicas, max), if d.time > lastDrop then d.time else lastDrop)
  {
  }

  /** At the same drop time the order is lost: an entry with a reported ballot, and then a new drop. */
  lemma SameTimeBreaksOrder(time: nat, ballot: nat, max: nat)
    requires max >= 2
    ensures var ds := [Dropped(1, time, ballot, 0, 0)];
            var d := Dropped(2, time, INVALID_BALLOT, INVALID_DECREE, INVALID_DECREE);
            Sorted(ds) && DistinctNodes(ds) && Fits(ds, 0, max) && !Sorted(Trim(ds + [d], 0, max))
  {
    var all := [Dropped(1, time, ballot, 0, 0)] + [Dropped(2, time, INVALID_BALLOT, INVALID_DECREE, INVALID_DECREE)];
    assert Cmp(all[0], all[1]) > 0;
  }

  /** Putting an entry in its place and trimming keeps the order and the bound on the times. */
  lemma PlaceAndTrim(ds: seq<Dropped>, p: nat, d: Dropped, lastDrop: nat, replicas: nat, max: nat)
    requires Sorted(ds) && IsLowerBound(ds, d, p) && DroppedBy(ds, lastDrop) && d.time <= lastDrop
    ensures var r := Trim(InsertAt(ds, p, d), replicas, max);
            Sorted(r) && DroppedBy(r, lastDrop)
  {
    InsertKeepsOrder(ds, p, d);
    TrimKeepsOrder(InsertAt(ds, p, d), replicas, max);
  }

  /** What is left of the list with `d` put in: all of it, or all but the lowest entry; `d` is missing only from a full
      list without a lower entry, which is then as it was. */
  ghost predicate Entered(ds: seq<Dropped>, d: Dropped, all: seq<Dropped>, after: seq<Dropped>, replicas: nat, max: nat) {
    && |all| > 0 && after == (if replicas + |ds| < max then all else all[1..])
    && (Listed(after, d.node) <==> replicas + |ds| < max || exists i :: 0 <= i < |ds| && Cmp(ds[i], d) < 0)
    && (if Listed(after, d.node) then d in after else after == ds)
  }

  lemma AppendKeepsDistinct(ds: seq<Dropped>, d: Dropped)
    requires DistinctNodes(ds) && !Listed(ds, d.node)
    ensures DistinctNodes(ds + [d])
  {}

  lemma RemoveKeepsTimes(ds: seq<Dropped>, i: nat, lastDrop: nat)
    requires DroppedBy(ds, lastDrop) && i < |ds|
    ensures DroppedBy(RemoveAt(ds, i), lastDrop)
  {}

  // ---- the list of one partition ---------------------------------------------------------------------

  class ConfigContext {
    const max: nat                  // MAX_REPLICA_COUNT_IN_GRROUP
    var replicas: nat               // replica_count of the partition's configuration
    var dropped: seq<Dropped>
    var preferedDropped: int
    ghost var lastDrop: nat         // the latest time passed to RecordDropHistory

    ghost predicate Indexed()
      reads this
    {
      DistinctNodes(dropped) && -1 <= preferedDropped < |dropped|
    }

    ghost predicate Valid()
      reads this
    {
      Indexed() && Sorted(dropped) && Fits(dropped, replicas, max) && DroppedBy(dropped, lastDrop)
    }

    constructor (max: nat, replicas: nat)
      ensures Valid() && dropped == [] && this.max == max && this.replicas == replicas
    {
      this.max, this.replicas, dropped, preferedDropped, lastDrop := max, replicas, [], -1, 0;
    }

    method CheckSize()
      requires Indexed()
      modifies `dropped, `preferedDropped
      ensures Indexed() && Fits(dropped, replicas, max) && dropped == Trim(old(dropped), replicas, max)
      ensures preferedDropped == if dropped == old(dropped) then old(preferedDropped) else |dropped| - 1
    {
      while replicas + |dropped| > max && dropped != []
        invariant Indexed() && |dropped| <= |old(dropped)|
        invariant dropped == old(dropped)[|old(dropped)| - |dropped|..]
        invariant |old(dropped)| - |dropped| <= Excess(old(dropped), replicas, max)
        invariant preferedDropped == if |dropped| == |old(dropped)| then old(preferedDropped) else |dropped| - 1
        decreases |dropped|
      {
        dropped := dropped[1..];
        preferedDropped := |dropped| - 1;
      }
    }

    /** The list with one more entry, the last one preferred, and then trimmed. */
    method Grow(more: seq<Dropped>)
      requires DistinctNodes(more) && more != []
      modifies `dropped, `preferedDropped
      ensures Indexed() && Fits(dropped, replicas, max) && dropped == Trim(more, replicas, max)
      ensures preferedDropped == |dropped| - 1
    {
      dropped := more;
      preferedDropped := |more| - 1;
      CheckSize();
    }

    /** The configuration has changed. */
    method SetReplicas(n: nat)
      requires Valid()
      modifies `replicas, `dropped, `preferedDropped
      ensures Valid() && replicas == n && dropped == Trim(old(dropped), n, max)
    {
      replicas := n;
      TrimKeepsOrder(dropped, n, max);
      CheckSize();
    }

    method FindFromDropped(node: nat) returns (i: nat)
      ensures i <= |dropped| && (i < |dropped| <==> Listed(dropped, node))
      ensures i < |dropped| ==> dropped[i].node == node
    {
      i := 0;
      while i < |dropped| && dropped[i].node != node
        invariant i <= |dropped| && forall k :: 0 <= k < i ==> dropped[k].node != node
      {
        i := i + 1;
      }
    }

    method RemoveFromDropped(node: nat) returns (removed: bool)
      requires Valid()
      modifies `dropped, `preferedDropped
      ensures Valid() && removed == old(Listed(dropped, node)) && !Listed(dropped, node)
      ensures !removed ==> dropped == old(dropped) && preferedDropped == old(preferedDropped)
      ensures removed ==> exists i :: 0 <= i < |old(dropped)| && old(dropped)[i].node == node
                            && dropped == RemoveAt(old(dropped), i)
    {
      var i := FindFromDropped(node);
      removed := i < |dropped|;
      if removed {
        RemoveKeeps(dropped, i);
        RemoveKeepsTimes(dropped, i, lastDrop);
        dropped := RemoveAt(dropped, i);
        preferedDropped := |dropped| - 1;
      }
    }

    /** The new entry goes last and the list is trimmed. */
    method Append(d: Dropped)
      requires Valid() && !Listed(dropped, d.node)
      modifies `dropped, `preferedDropped
      ensures Indexed() && Fits(dropped, replicas, max) && dropped == Trim(old(dropped) + [d], replicas, max)
      ensures Sorted(dropped) <==> MayGoLast(old(dropped), d, replicas, max)
      ensures d.time > lastDrop ==> Sorted(dropped)
      ensures DroppedBy(dropped, if d.time > lastDrop then d.time else lastDrop)
    {
      AppendKeepsOrder(dropped, d, replicas, max);
      AppendKeepsDistinct(dropped, d);
      LaterDropsGoLast(dropped, d, lastDrop, replicas, max);
      Grow(dropped + [d]);
    }

    /** Along a run whose drop times go up, the list stays valid; in general exactly when the entry may go last. */
    method RecordDropHistory(node: nat, now: nat) returns (recorded: bool)
      requires Valid()
      modifies `dropped, `preferedDropped, `lastDrop
      ensures now > old(lastDrop) ==> Valid()
      ensures lastDrop == if now > old(lastDrop) then now else old(lastDrop)
      ensures recorded == !old(Listed(dropped, node))
      ensures !recorded ==> dropped == old(dropped) && preferedDropped == old(preferedDropped)
      ensures var d := Dropped(node, now, INVALID_BALLOT, INVALID_DECREE, INVALID_DECREE);
              recorded ==>
                && Indexed() && Fits(dropped, replicas, max) && dropped == Trim(old(dropped) + [d], replicas, max)
                && (Valid() <==> MayGoLast(old(dropped), d, replicas, max))
    {
      var i := FindFromDropped(node);
      recorded := i == |dropped|;
      if recorded {
        Append(Dropped(node, now, INVALID_BALLOT, INVALID_DECREE, INVALID_DECREE));
      }
      lastDrop := if now > lastDrop then now else lastDrop;
    }

    /** std::lower_bound on the list. */
    method LowerBound(d: Dropped) returns (p: nat)
      requires Sorted(dropped)
      ensures IsLowerBound(dropped, d, p)
    {
      p := 0;
      var len := |dropped|;
      while len > 0
        invariant 0 <= len && p + len <= |dropped|
        invariant forall i :: 0 <= i < p ==> Cmp(dropped[i], d) < 0
        invariant forall i :: p + len <= i < |dropped| ==> Cmp(dropped[i], d) >= 0
      {
        var half := len / 2;
        if Cmp(dropped[p + half], d) < 0 {
          p, len := p + half + 1, len - half - 1;
        } else {
          len := half;
        }
      }
    }

    /** Puts an entry in its place and trims the list. */
    method Insert(d: Dropped) returns (ghost p: nat)
      requires Valid() && !Listed(dropped, d.node) && d.time <= lastDrop
      modifies `dropped, `preferedDropped
      ensures Valid() && IsLowerBound(old(dropped), d, p)
      ensures dropped == Trim(InsertAt(old(dropped), p, d), replicas, max)
    {
      var k := LowerBound(d);
      p := k;
      PlaceAndTrim(dropped, k, d, lastDrop, replicas, max);
      InsertKeepsDistinct(dropped, k, d);
      Grow(InsertAt(dropped, k, d));
    }

    /** A listed node is taken off the list, and its drop time kept. */
    method TakeOut(node: nat) returns (found: bool, time: nat, ghost i: nat)
      requires Valid()
      modifies `dropped, `preferedDropped
      ensures Valid() && !Listed(dropped, node) && time <= lastDrop && found == old(Listed(dropped, node))
      ensures !found ==> time == INVALID_TIMESTAMP && dropped == old(dropped) && preferedDropped == old(preferedDropped)
      ensures found ==>
                && i < |old(dropped)| && old(dropped)[i].node == node && time == old(dropped)[i].time
                && dropped == RemoveAt(old(dropped), i)
    {
      time := INVALID_TIMESTAMP;
      var k := FindFromDropped(node);
      i, found := k, k < |dropped|;
      if found {
        RemoveKeeps(dropped, k);
        RemoveKeepsTimes(dropped, k, lastDrop);
        time := dropped[k].time;
        dropped := RemoveAt(dropped, k);
        preferedDropped := |dropped| - 1;
      }
    }

    /** collect_drop_replica: 1 when the node was listed already, 0 when it is new, -1 when it is not taken. */
    method CollectDropReplica(node: nat, info: ReplicaInfo) returns (r: int)
      requires Valid()
      modifies `dropped, `preferedDropped
      ensures Valid() && -1 <= r <= 1
      ensures r == 1 <==> old(Listed(dropped, node))
      ensures r == -1 <==> !old(Listed(dropped, node)) && replicas + |old(dropped)| >= max
                           && forall i :: 0 <= i < |old(dropped)| ==>
                                Cmp(old(dropped)[i], Current(INVALID_TIMESTAMP, node, info)) >= 0
      ensures r == -1 ==> dropped == old(dropped)
      ensures r != -1 ==> ListedAs(dropped, node, info)
      ensures r == 1 ==> exists i: nat :: i < |old(dropped)| && old(dropped)[i].node == node
                           && Placed(RemoveAt(old(dropped), i), Current(old(dropped)[i].time, node, info), dropped)
      ensures r == 0 ==> exists all :: Placed(old(dropped), Current(INVALID_TIMESTAMP, node, info), all)
                           && dropped == if replicas + |old(dropped)| < max then all else all[1..]
    {
      var found, time;
      ghost var i;
      found, time, i := TakeOut(node);
      ghost var mid := dropped;
      ghost var p := Insert(Current(time, node, info));
      ghost var d := Current(time, node, info);
      ghost var all := InsertAt(mid, p, d);
      assert Placed(mid, d, all) && Entered(mid, d, all, dropped, replicas, max) by {
        TrimAfterInsert(mid, p, d, replicas, max);
        InsertedSurvives(mid, p, d, replicas, max);
      }
      var k := FindFromDropped(node);
      if k == |dropped| {
        assert !found;
        return -1;
      }
      r := if found then 1 else 0;
    }
  }
}
