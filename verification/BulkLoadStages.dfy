/** What a bulk load's runs owe to the replies: no stage is left before the replies have said that it is finished.
    And when a run can still come to its end: always, unless it was restarted at the wrong moment. */
module BulkLoadStages {
  import opened BulkLoad
  import opened Counting

  function Rank(s: Status): nat {
    match s
    case Downloading => 0
    case Downloaded => 1
    case Ingesting => 2
    case Succeed => 3
  }

  // ---- no stage is left early ------------------------------------------------------------------------

  /** Partition i has left stage x: in memory, in remote storage, or by a write on its way. The last stage is left by
      cleaning up. */
  ghost predicate Beyond(s: State, i: nat, x: Status)
    requires Shape(s) && i < |s.part|
  {
    if x == Succeed then s.clean[i] != NotCleaned
    else Rank(s.part[i]) > Rank(x) || Rank(s.storedPart[i]) > Rank(x)
         || (!s.partWrite[i].Idle? && Rank(s.partWrite[i].status) > Rank(x))
  }

  /** A handler of partition i that had read the app at stage x acts on a reply that says: finished. A downloaded
      partition needs no more than a reply to start ingestion. */
  ghost predicate Finishes(s: State, e: Event, i: nat, x: Status)
    requires Shape(s)
  {
    e.Act? && e.i == i < |s.part| && s.handler[i] == HasRead(x) && (e.done || x == Downloaded)
  }

  /** Some event of the run does. */
  ghost predicate Finished(s: State, es: seq<Event>, i: nat, x: Status)
    requires Shape(s)
    decreases |es|
  {
    es != [] && Enabled(s, es[0]) && (Finishes(s, es[0], i, x) || Finished(Apply(s, es[0]), es[1..], i, x))
  }

  lemma ActLeavesStage(s: State, e: Event, i: nat, x: Status)
    requires Inv(s) && Enabled(s, e) && e.Act? && i < |s.part|
    ensures |Apply(s, e).part| == |s.part|
    ensures Beyond(Apply(s, e), i, x) ==> Beyond(s, i, x) || Finishes(s, e, i, x)
  {
    assert PartitionInv(s.app, s.part[i], s.partWrite[i], s.handler[i], s.clean[i], s.storedPart[i]);
  }

  lemma StepLeavesStage(s: State, e: Event, i: nat, x: Status)
    requires Inv(s) && Enabled(s, e) && i < |s.part|
    ensures |Apply(s, e).part| == |s.part|
    ensures Beyond(Apply(s, e), i, x) ==> Beyond(s, i, x) || Finishes(s, e, i, x)
  {
    if e.Act? {
      ActLeavesStage(s, e, i, x);
    }
  }

  lemma {:induction false} RunLeavesStage(s: State, es: seq<Event>, t: State, i: nat, x: Status)
    requires Inv(s) && Runs(s, es, t) && i < |s.part|
    ensures Shape(t) && |t.part| == |s.part|
    ensures Beyond(t, i, x) ==> Beyond(s, i, x) || Finished(s, es, i, x)
    decreases |es|
  {
    if es != [] {
      StepLeavesStage(s, es[0], i, x);
      StepKeepsInv(s, es[0]);
      RunLeavesStage(Apply(s, es[0]), es[1..], t, i, x);
    }
  }

  /** In every run, crashes included: a partition is past a stage, in memory or in remote storage, only after a reply to
      a handler at that stage has said that the stage is finished. */
  lemma StagesAreFinished(s: State, es: seq<Event>, t: State, i: nat, x: Status)
    requires Initial(s) && Runs(s, es, t) && i < |s.part|
    ensures Shape(t) && |t.part| == |s.part|
    ensures Beyond(t, i, x) ==> Finished(s, es, i, x)
  {
    InitialInv(s);
    RunLeavesStage(s, es, t, i, x);
  }

  /** And the app passes a stage, and its directory is removed, only after this has happened for every partition. */
  lemma AppPassesFinishedStages(s: State, es: seq<Event>, t: State, i: nat, x: Status)
    requires Initial(s) && Runs(s, es, t) && i < |s.part|
    ensures Rank(t.app) > Rank(x) || Rank(t.storedApp) > Rank(x) ==> Finished(s, es, i, x)
    ensures t.removing ==> Finished(s, es, i, x)
  {
    InitialInv(s);
    RunKeepsInv(s, es, t);
    StagesAreFinished(s, es, t, i, x);
    assert PartitionInv(t.app, t.part[i], t.partWrite[i], t.handler[i], t.clean[i], t.storedPart[i]);
    assert t.removing ==> t.clean[i] == Counted;
  }

  // ---- no run gets stuck -----------------------------------------------------------------------------

  /** Something is left to be done by a partition, unless the app's own write is pending or all is done. */
  ghost predicate Alive(s: State)
    requires Shape(s)
  {
    if s.app == Succeed then s.removing || exists i :: 0 <= i < |s.clean| && s.clean[i] != Counted
    else !s.appWrite.Idle? || exists i :: 0 <= i < |s.part| && s.part[i] == s.app
  }

  /** How many events one partition still needs at the app's stage. */
  function Cost(a: Status, part: Status, w: Write, h: Handler, c: Clean): nat {
    var turn := if h == HasRead(a) then 0 else if h.Waiting? then 1 else 2;
    if a == Succeed then (match c case Counted => 0 case Marked => 1 case NotCleaned => 2 + turn)
    else if part != a then 0
    else match w case Written(_) => 1 case InFlight(_) => 2 case Idle => 3 + turn
  }

  function Costs(s: State): (cs: seq<nat>)
    requires Shape(s)
    ensures |cs| == |s.part|
    ensures forall i :: 0 <= i < |cs| ==> cs[i] == Cost(s.app, s.part[i], s.partWrite[i], s.handler[i], s.clean[i])
  {
    seq(|s.part|, i requires 0 <= i < |s.part| => Cost(s.app, s.part[i], s.partWrite[i], s.handler[i], s.clean[i]))
  }

  function Sum(xs: seq<nat>): nat {
    if xs == [] then 0 else Sum(xs[..|xs| - 1]) + xs[|xs| - 1]
  }

  lemma {:induction false} SumUpdate(xs: seq<nat>, i: nat, x: nat)
    requires i < |xs|
    ensures Sum(xs[i := x]) == Sum(xs) + x - xs[i]
  {
    var k := |xs| - 1;
    if i == k {
      assert xs[i := x][..k] == xs[..k];
    } else {
      assert xs[i := x][..k] == xs[..k][i := x];
      SumUpdate(xs[..k], i, x);
    }
  }

  function WriteLeft(w: Write): nat {
    match w case Idle => 2 case InFlight(_) => 1 case Written(_) => 0
  }

  /** The next event that partition i needs. */
  function Needed(s: State, i: nat): Event
    requires Shape(s) && i < |s.part|
  {
    if s.app == Succeed && s.clean[i] == Marked then TakeOff(i)
    else if s.app != Succeed && s.partWrite[i].InFlight? then StorePartition(i)
    else if s.app != Succeed && s.partWrite[i].Written? then PartitionStored(i)
    else if s.handler[i].Waiting? then Read(i)
    else Act(i, true)
  }

  ghost predicate Busy(s: State, i: nat)
    requires Shape(s)
  {
    i < |s.part| && Costs(s)[i] > 0 && s.appWrite.Idle?
  }

  lemma NeededIsEnabled(s: State, i: nat)
    requires Inv(s) && Busy(s, i)
    ensures Enabled(s, Needed(s, i)) && !Needed(s, i).Crash? && Apply(s, Needed(s, i)).app == s.app
  {
    assert PartitionInv(s.app, s.part[i], s.partWrite[i], s.handler[i], s.clean[i], s.storedPart[i]);
  }

  lemma NeededCostsLess(s: State, i: nat)
    requires Inv(s) && Busy(s, i) && Enabled(s, Needed(s, i))
    ensures var t := Apply(s, Needed(s, i)); |t.part| == |s.part| && Costs(t)[i] < Costs(s)[i]
  {
    assert PartitionInv(s.app, s.part[i], s.partWrite[i], s.handler[i], s.clean[i], s.storedPart[i]);
  }

  lemma StepSparesOthers(s: State, e: Event, k: nat)
    requires Shape(s) && Enabled(s, e) && k < |s.part|
    requires (e.Read? || e.Act? || e.TakeOff? || e.StorePartition? || e.PartitionStored?) && e.i != k
    ensures var t := Apply(s, e);
            && |t.part| == |s.part|
            && t.part[k] == s.part[k] && t.partWrite[k] == s.partWrite[k]
            && t.handler[k] == s.handler[k] && t.clean[k] == s.clean[k]
  {}

  /** It is enabled, brings partition i forward and leaves the costs of the others alone. */
  lemma NeededHelps(s: State, i: nat)
    requires Inv(s) && Busy(s, i)
    ensures Enabled(s, Needed(s, i)) && !Needed(s, i).Crash?
    ensures var t := Apply(s, Needed(s, i));
            && t.app == s.app && |t.part| == |s.part|
            && Costs(t)[i] < Costs(s)[i] && Costs(t) == Costs(s)[i := Costs(t)[i]]
  {
    NeededIsEnabled(s, i);
    NeededCostsLess(s, i);
    var t := Apply(s, Needed(s, i));
    forall k | 0 <= k < |s.part| && k != i ensures Costs(t)[k] == Costs(s)[k] {
      StepSparesOthers(s, Needed(s, i), k);
    }
  }

  lemma RunsFirst(s: State, e: Event, es: seq<Event>, t: State)
    requires Shape(s) && Enabled(s, e) && Runs(Apply(s, e), es, t)
    ensures Runs(s, [e] + es, t)
  {
    assert ([e] + es)[1..] == es;
  }

  ghost predicate NoCrash(es: seq<Event>) {
    forall e :: e in es ==> !e.Crash?
  }

  lemma AliveHasBusy(s: State) returns (i: nat)
    requires Inv(s) && Alive(s) && !s.removing && s.appWrite.Idle?
    ensures Busy(s, i)
  {
    if s.app == Succeed {
      i :| 0 <= i < |s.clean| && s.clean[i] != Counted;
    } else {
      i :| 0 <= i < |s.part| && s.part[i] == s.app;
    }
  }

  lemma AppWriteGoesOn(s: State, e: Event)
    requires Inv(s) && !s.appWrite.Idle? && e == if s.appWrite.InFlight? then StoreApp else AppStored
    ensures Enabled(s, e) && Alive(Apply(s, e))
    ensures if e.StoreApp? then Apply(s, e).app == s.app && Apply(s, e).appWrite.Written?
            else Rank(Apply(s, e).app) == Rank(s.app) + 1
  {
    StepKeepsInv(s, e);
    if e.AppStored? {
      AppStoredKeepsInv(s);
      var t := Apply(s, e);
      assert t.part[0] == t.app;
      assert PartitionInv(s.app, s.part[0], s.partWrite[0], s.handler[0], s.clean[0], s.storedPart[0]);
    }
  }

  /** From such a state some run without a crash ends with the directory removed. */
  lemma {:induction false} CanFinish(s: State) returns (es: seq<Event>, t: State)
    requires Inv(s) && Alive(s)
    ensures Runs(s, es, t) && NoCrash(es) && t.removing
    decreases 3 - Rank(s.app), WriteLeft(s.appWrite), Sum(Costs(s))
  {
    if s.removing {
      es, t := [], s;
      return;
    }
    var e;
    if s.appWrite.Idle? {
      var i := AliveHasBusy(s);
      e := Needed(s, i);
      NeededHelps(s, i);
      StepKeepsAlive(s, e);
      SumUpdate(Costs(s), i, Costs(Apply(s, e))[i]);
    } else {
      e := if s.appWrite.InFlight? then StoreApp else AppStored;
      AppWriteGoesOn(s, e);
    }
    StepKeepsInv(s, e);
    var more;
    more, t := CanFinish(Apply(s, e));
    RunsFirst(s, e, more, t);
    es := [e] + more;
  }

  /** In terms of the counter: it is not 0. */
  lemma AliveByCount(s: State)
    requires Inv(s)
    ensures Alive(s) <==> s.count != 0 || (if s.app == Succeed then s.removing else !s.appWrite.Idle?)
  {
    OccurrencesNone(s.part, s.app);
    OccurrencesAll(s.clean, Counted);
  }

  lemma CountStaysOrEnds(s: State, e: Event)
    requires Inv(s) && Enabled(s, e) && (e.PartitionStored? || e.TakeOff?)
    ensures var t := Apply(s, e);
            t.count != 0 || (if t.app == Succeed then t.removing else !t.appWrite.Idle?)
  {
    assert PartitionInv(s.app, s.part[e.i], s.partWrite[e.i], s.handler[e.i], s.clean[e.i], s.storedPart[e.i]);
  }

  lemma StepKeepsAlive(s: State, e: Event)
    requires Inv(s) && Alive(s) && Enabled(s, e) && !e.Crash?
    ensures Alive(Apply(s, e))
  {
    StepKeepsInv(s, e);
    AliveByCount(s);
    AliveByCount(Apply(s, e));
    if e.PartitionStored? || e.TakeOff? {
      CountStaysOrEnds(s, e);
    } else if e.AppStored? {
      AppWriteGoesOn(s, e);
    }
  }

  lemma {:induction false} RunKeepsAlive(s: State, es: seq<Event>, t: State)
    requires Inv(s) && Alive(s) && Runs(s, es, t) && NoCrash(es)
    ensures Inv(t) && Alive(t)
    decreases |es|
  {
    if es != [] {
      assert es[0] in es;
      StepKeepsAlive(s, es[0]);
      StepKeepsInv(s, es[0]);
      RunKeepsAlive(Apply(s, es[0]), es[1..], t);
    }
  }

  /** Whatever has happened in a run without a restart, the bulk load can still be brought to its end. */
  lemma NeverStuck(s: State, es: seq<Event>, t: State) returns (more: seq<Event>, end: State)
    requires Initial(s) && Runs(s, es, t) && NoCrash(es)
    ensures Shape(t) && Runs(t, more, end) && NoCrash(more) && end.removing
  {
    InitialInv(s);
    assert s.part[0] == s.app;
    RunKeepsAlive(s, es, t);
    more, end := CanFinish(t);
  }

  // ---- when a restart gets it stuck --------------------------------------------------------------------

  /** No partition is left at the app's status to bring the app forward, and the app's own write is not pending. */
  ghost predicate Stuck(s: State)
    requires Shape(s)
  {
    s.app != Succeed && s.appWrite.Idle? && forall i :: 0 <= i < |s.part| ==> s.part[i] != s.app
  }

  /** Once every partition is taken off, the directory is being removed. */
  ghost predicate Settled(s: State) {
    s.app == Succeed && AllCounted(s.clean) ==> s.removing
  }

  /** Remote storage holds the last partition's write of a stage, and not yet the app's. */
  ghost predicate BetweenWrites(s: State)
    requires Shape(s)
  {
    s.storedApp != Succeed && forall i :: 0 <= i < |s.part| ==> s.storedPart[i] == Next(s.storedApp)
  }

  lemma StepKeepsStuck(s: State, e: Event)
    requires Inv(s) && Stuck(s) && Enabled(s, e)
    ensures Stuck(Apply(s, e)) && !Apply(s, e).removing
  {
    if e.Act? || e.TakeOff? || e.StorePartition? || e.PartitionStored? {
      assert PartitionInv(s.app, s.part[e.i], s.partWrite[e.i], s.handler[e.i], s.clean[e.i], s.storedPart[e.i]);
    } else if e.Crash? {
      forall i | 0 <= i < |s.part| ensures s.storedPart[i] != s.storedApp {
        assert PartitionInv(s.app, s.part[i], s.partWrite[i], s.handler[i], s.clean[i], s.storedPart[i]);
      }
    }
  }

  lemma {:induction false} RunKeepsStuck(s: State, es: seq<Event>, t: State)
    requires Inv(s) && Stuck(s) && Runs(s, es, t)
    ensures Shape(t) && Stuck(t) && !t.removing
    decreases |es|
  {
    if es != [] {
      StepKeepsStuck(s, es[0]);
      StepKeepsInv(s, es[0]);
      RunKeepsStuck(Apply(s, es[0]), es[1..], t);
    }
  }

  lemma StepKeepsSettled(s: State, e: Event)
    requires Inv(s) && Settled(s) && Enabled(s, e)
    ensures Settled(Apply(s, e))
  {
    if e.Crash? {
      assert Apply(s, e).clean[0] == NotCleaned;
    } else if Stuck(s) {
      StepKeepsStuck(s, e);
    } else {
      StepKeepsAlive(s, e);
    }
  }

  lemma {:induction false} RunKeepsSettled(s: State, es: seq<Event>, t: State)
    requires Inv(s) && Settled(s) && Runs(s, es, t)
    ensures Inv(t) && Settled(t)
    decreases |es|
  {
    if es != [] {
      StepKeepsSettled(s, es[0]);
      StepKeepsInv(s, es[0]);
      RunKeepsSettled(Apply(s, es[0]), es[1..], t);
    }
  }

  /** Some further run ends with the directory removed. */
  ghost predicate Finishable(s: State)
    requires Shape(s)
  {
    exists more, end :: Runs(s, more, end) && end.removing
  }

  /** In every run, restarts included: the bulk load can still be brought to its end if and only if it is not stuck. */
  lemma CanFinishIffNotStuck(s: State, es: seq<Event>, t: State)
    requires Initial(s) && Runs(s, es, t)
    ensures Shape(t)
    ensures Finishable(t) <==> !Stuck(t)
  {
    InitialInv(s);
    RunKeepsSettled(s, es, t);
    if Stuck(t) {
      forall more, end | Runs(t, more, end) ensures !end.removing {
        RunKeepsStuck(t, more, end);
      }
    } else {
      var more, end := CanFinish(t);
    }
  }

  /** A restart makes it stuck exactly between the two writes. */
  lemma RestartSticks(s: State)
    requires Inv(s) && Enabled(s, Crash)
    ensures Stuck(Apply(s, Crash)) <==> BetweenWrites(s)
  {
    CrashKeepsInv(s);
    var t := Recover(s);
    forall i | 0 <= i < |s.part| ensures s.storedPart[i] == t.app || s.storedPart[i] == Next(t.app) {
      assert PartitionInv(t.app, t.part[i], t.partWrite[i], t.handler[i], t.clean[i], t.storedPart[i]);
    }
  }

  lemma {:induction false} StuckSince(s: State, es: seq<Event>, t: State) returns (k: nat, mid: State)
    requires Inv(s) && Settled(s) && !Stuck(s) && Runs(s, es, t)
    requires Shape(t) && Stuck(t)
    ensures k < |es| && es[k].Crash? && Runs(s, es[..k], mid) && Shape(mid) && BetweenWrites(mid)
    decreases |es|
  {
    var u := Apply(s, es[0]);
    StepKeepsInv(s, es[0]);
    StepKeepsSettled(s, es[0]);
    if Stuck(u) {
      if !es[0].Crash? {
        StepKeepsAlive(s, es[0]);
      }
      RestartSticks(s);
      k, mid := 0, s;
    } else {
      k, mid := StuckSince(u, es[1..], t);
      RunsFirst(s, es[0], es[1..][..k], mid);
      k := k + 1;
      assert es[..k] == [es[0]] + es[1..][..k - 1];
    }
  }

  /** So a bulk load that is stuck was restarted between the last partition's write of some stage and the app's. */
  lemma StuckByRestart(s: State, es: seq<Event>, t: State) returns (k: nat, mid: State)
    requires Initial(s) && Runs(s, es, t) && Shape(t) && Stuck(t)
    ensures k < |es| && es[k].Crash? && Runs(s, es[..k], mid) && Shape(mid) && BetweenWrites(mid)
  {
    InitialInv(s);
    assert s.part[0] == s.app;
    k, mid := StuckSince(s, es, t);
  }

  /** An app with one partition and no write of its own pending. */
  function One(app: Status, part: Status, w: Write, h: Handler, stored: Status): State {
    State(app, Idle, if part == app then 1 else 0, [part], [w], [h], [NotCleaned], app, [stored], false)
  }

  lemma OneDownloads(more: seq<Event>, t: State) returns (es: seq<Event>)
    requires Runs(One(Downloaded, Downloaded, Idle, Waiting, Downloaded), more, t)
    ensures Runs(One(Downloading, Downloading, Idle, Waiting, Downloading), es, t)
  {
    var s1 := One(Downloading, Downloading, Idle, HasRead(Downloading), Downloading);
    var s2 := One(Downloading, Downloading, InFlight(Downloaded), Waiting, Downloading);
    var s3 := One(Downloading, Downloading, Written(Downloaded), Waiting, Downloaded);
    es := OneFollows(more, t);
    es := RunsBefore(s2, StorePartition(0), s3, es, t);
    es := RunsBefore(s1, Act(0, true), s2, es, t);
    es := RunsBefore(One(Downloading, Downloading, Idle, Waiting, Downloading), Read(0), s1, es, t);
  }

  lemma OneFollows(more: seq<Event>, t: State) returns (es: seq<Event>)
    requires Runs(One(Downloaded, Downloaded, Idle, Waiting, Downloaded), more, t)
    ensures Runs(One(Downloading, Downloading, Written(Downloaded), Waiting, Downloaded), es, t)
  {
    var s4 := One(Downloading, Downloaded, Idle, Waiting, Downloaded).(appWrite := InFlight(Downloaded));
    var s5 := s4.(appWrite := Written(Downloaded), storedApp := Downloaded);
    es := RunsBefore(s5, AppStored, One(Downloaded, Downloaded, Idle, Waiting, Downloaded), more, t);
    es := RunsBefore(s4, StoreApp, s5, es, t);
    es := RunsBefore(One(Downloading, Downloading, Written(Downloaded), Waiting, Downloaded), PartitionStored(0), s4, es, t);
  }

  lemma RunsBefore(s: State, e: Event, u: State, es: seq<Event>, t: State) returns (all: seq<Event>)
    requires Shape(s) && Enabled(s, e) && Apply(s, e) == u && Runs(u, es, t)
    ensures Runs(s, all, t)
  {
    RunsFirst(s, e, es, t);
    all := [e] + es;
  }

  lemma OneStartsIngestion(more: seq<Event>, t: State) returns (es: seq<Event>)
    requires Runs(One(Downloaded, Downloaded, Written(Ingesting), Waiting, Ingesting), more, t)
    ensures Runs(One(Downloaded, Downloaded, Idle, Waiting, Downloaded), es, t)
  {
    var s1 := One(Downloaded, Downloaded, Idle, HasRead(Downloaded), Downloaded);
    var s2 := One(Downloaded, Downloaded, InFlight(Ingesting), Waiting, Downloaded);
    es := RunsBefore(s2, StorePartition(0), One(Downloaded, Downloaded, Written(Ingesting), Waiting, Ingesting), more, t);
    es := RunsBefore(s1, Act(0, false), s2, es, t);
    es := RunsBefore(One(Downloaded, Downloaded, Idle, Waiting, Downloaded), Read(0), s1, es, t);
  }

  /** This does happen: one partition has downloaded, its start of ingestion is stored, and then comes the restart. */
  lemma RestartMayStick() returns (es: seq<Event>, t: State)
    ensures Initial(Fresh(1)) && Runs(Fresh(1), es, t) && Shape(t) && Stuck(t) && !Finishable(t)
  {
    var s := One(Downloaded, Downloaded, Written(Ingesting), Waiting, Ingesting);
    t := Recover(s);
    es := RunsBefore(s, Crash, t, [], t);
    es := OneStartsIngestion(es, t);
    es := OneDownloads(es, t);
    assert Fresh(1) == One(Downloading, Downloading, Idle, Waiting, Downloading);
    CanFinishIffNotStuck(Fresh(1), es, t);
  }
}
