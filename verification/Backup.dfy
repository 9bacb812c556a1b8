/** The progress chain of one cold backup instance (meta_backup_service.cpp): partition, app, backup. Callbacks
    arrive in any order, repeatedly, and from apps that are dropped on the way. */
module Backup {
  import opened Options
  import opened Counting

  const PROGRESS_FINISHED := 1000

  /** The progress of one app. Apps that were not available at the start have no record. `reported` notes the
      partitions finished by a replica's reply rather than by dropping the app. The three counts are the
      tasks that write the finish flag, the finish steps queued behind them, and the finish steps done. */
  datatype App = App(recorded: bool, skipped: bool, unfinished: int, parts: seq<int>, reported: seq<bool>,
                     writing: nat, queued: nat, finishes: nat, flag: bool)

  datatype State = State(apps: seq<App>, unfinishedApps: int, endTime: Option<nat>)

  datatype Reply = Reply(ok: bool, backupId: nat, progress: int)

  datatype Event =
    | ContinueApp(a: nat, available: bool)
    | StartMeta(a: nat, available: bool)
    | StartPartition(a: nat, p: nat, dropped: bool)
    | OnReply(a: nat, p: nat, reply: Reply)
    | WriteFlag(a: nat, written: bool)    // one attempt; a failed one is tried again
    | Finish(a: nat, now: nat)

  // ---- steps on one app ------------------------------------------------------------------------------

  /** initialize_backup_progress_unlocked */
  function Fresh(partitions: Option<nat>): App {
    match partitions
    case None => App(false, true, 0, [], [], 0, 0, 0, false)
    case Some(n) => App(true, false, n, seq(n, _ => 0), seq(n, _ => false), 0, 0, 0, false)
  }

  /** update_partition_progress_unlocked */
  function Update(x: App, p: nat, progress: int, byReply: bool): (y: App)
    requires p < |x.parts| == |x.reported|
    ensures |y.parts| == |y.reported| == |x.parts|
  {
    if x.parts[p] == PROGRESS_FINISHED then x
    else if progress != PROGRESS_FINISHED then x.(parts := x.parts[p := progress])
    else x.(parts := x.parts[p := progress], reported := x.reported[p := byReply],
            unfinished := x.unfinished - 1,
            writing := if x.unfinished - 1 == 0 then x.writing + 1 else x.writing)
  }

  /** The first `n` partitions of a dropped app count as finished. */
  function DropFirst(x: App, n: nat): (y: App)
    requires n <= |x.parts| == |x.reported|
    ensures |y.parts| == |y.reported| == |x.parts|
  {
    if n == 0 then x.(skipped := true) else Update(DropFirst(x, n - 1), n - 1, PROGRESS_FINISHED, false)
  }

  function StartAppMeta(x: App, available: bool): App
    requires 0 <= x.unfinished <= |x.parts| == |x.reported|
  {
    if available then x else DropFirst(x, x.unfinished)
  }

  function StartAppPartition(x: App, p: nat, dropped: bool): App
    requires p < |x.parts| == |x.reported|
  {
    if dropped then Update(x.(skipped := true), p, PROGRESS_FINISHED, false) else x
  }

  function BackupReply(x: App, p: nat, current: nat, r: Reply): App
    requires p < |x.parts| == |x.reported|
  {
    if r.ok && r.backupId >= current then Update(x, p, r.progress, true) else x
  }

  /** One attempt at the finish flag; a dropped app gets none. */
  function WriteFinishFlag(x: App, written: bool): App
    requires x.writing > 0
  {
    if x.skipped then x.(writing := x.writing - 1, queued := x.queued + 1)
    else if written then x.(flag := true, writing := x.writing - 1, queued := x.queued + 1)
    else x
  }

  // ---- runs ------------------------------------------------------------------------------------------

  predicate Sized(x: App) {
    0 <= x.unfinished <= |x.parts| == |x.reported|
  }

  /** `started` are the apps that continue_current_backup_unlocked has gone through. */
  predicate Enabled(s: State, started: set<nat>, current: nat, e: Event) {
    match e
    case ContinueApp(a, _) => a < |s.apps| && a !in started
    case StartMeta(a, _) => a < |s.apps| && s.apps[a].recorded
    case StartPartition(a, p, _) => a < |s.apps| && p < |s.apps[a].parts|
    case OnReply(a, p, r) => a < |s.apps| && p < |s.apps[a].parts| && r.backupId <= current
    case WriteFlag(a, _) => a < |s.apps| && s.apps[a].writing > 0
    case Finish(a, _) => a < |s.apps| && s.apps[a].queued > 0
  }

  function ApplyOn(x: App, current: nat, e: Event): App
    requires Sized(x)
    requires e.StartPartition? || e.OnReply? ==> e.p < |x.parts|
    requires e.WriteFlag? ==> x.writing > 0
    requires e.Finish? ==> x.queued > 0
  {
    match e
    case ContinueApp(_, available) =>
      if x.recorded then StartAppMeta(x, available) else x.(writing := x.writing + 1)
    case StartMeta(_, available) => StartAppMeta(x, available)
    case StartPartition(_, p, dropped) => StartAppPartition(x, p, dropped)
    case OnReply(_, p, r) => BackupReply(x, p, current, r)
    case WriteFlag(_, written) => WriteFinishFlag(x, written)
    case Finish(_, _) => x.(queued := x.queued - 1, finishes := x.finishes + 1)
  }

  function Apply(s: State, current: nat, e: Event): State
    requires e.a < |s.apps| && Sized(s.apps[e.a])
    requires e.StartPartition? || e.OnReply? ==> e.p < |s.apps[e.a].parts|
    requires e.WriteFlag? ==> s.apps[e.a].writing > 0
    requires e.Finish? ==> s.apps[e.a].queued > 0
  {
    var t := s.(apps := s.apps[e.a := ApplyOn(s.apps[e.a], current, e)]);
    if !e.Finish? then t
    else t.(unfinishedApps := s.unfinishedApps - 1,
            endTime := if s.unfinishedApps - 1 == 0 then Some(e.now) else s.endTime)
  }

  function Start(partitions: seq<Option<nat>>): State {
    State(seq(|partitions|, a requires 0 <= a < |partitions| => Fresh(partitions[a])), |partitions|, None)
  }

  function Started(started: set<nat>, e: Event): set<nat> {
    if e.ContinueApp? then started + {e.a} else started
  }

  /** `Sized` only makes the step well defined: StepKeepsInv shows that it always holds. */
  ghost predicate Runs(s: State, started: set<nat>, current: nat, es: seq<Event>, t: State)
    decreases |es|
  {
    if es == [] then s == t
    else
      && Enabled(s, started, current, es[0]) && Sized(s.apps[es[0].a])
      && Runs(Apply(s, current, es[0]), Started(started, es[0]), current, es[1..], t)
  }

  // ---- the invariant ---------------------------------------------------------------------------------

  function Unfinished(x: App): int {
    |x.parts| - Occurrences(x.parts, PROGRESS_FINISHED)
  }

  /** How often the app's finish has been set going. */
  function Chains(x: App): nat {
    x.writing + x.queued + x.finishes
  }

  ghost predicate AppInv(x: App, started: bool) {
    && x.unfinished == Unfinished(x) && |x.parts| == |x.reported|
    && (x.recorded ==> Chains(x) == if x.parts != [] && x.unfinished == 0 then 1 else 0)
    && (!x.recorded ==> x.parts == [] && x.skipped && Chains(x) == if started then 1 else 0)
    && (!x.skipped ==> forall p :: 0 <= p < |x.parts| ==> (x.parts[p] == PROGRESS_FINISHED ==> x.reported[p]))
    && (x.queued + x.finishes > 0 && !x.skipped ==> x.flag)
    && (x.flag ==> x.unfinished == 0 && forall p :: 0 <= p < |x.parts| ==> x.reported[p])
  }

  /** The apps whose finish step has run. */
  function Done(apps: seq<App>): nat {
    if apps == [] then 0
    else Done(apps[..|apps| - 1]) + if apps[|apps| - 1].finishes > 0 then 1 else 0
  }

  ghost predicate Inv(s: State, started: set<nat>) {
    && (forall a :: 0 <= a < |s.apps| ==> AppInv(s.apps[a], a in started))
    && s.unfinishedApps == |s.apps| - Done(s.apps)
    && (s.endTime.Some? <==> s.apps != [] && s.unfinishedApps == 0)
  }

  lemma {:induction false} DoneUpdate(apps: seq<App>, a: nat, x: App)
    requires a < |apps|
    ensures Done(apps[a := x]) == Done(apps) + (if x.finishes > 0 then 1 else 0) - if apps[a].finishes > 0 then 1 else 0
  {
    var k := |apps| - 1;
    if a == k {
      assert apps[a := x][..k] == apps[..k];
    } else {
      assert apps[a := x][..k] == apps[..k][a := x];
      DoneUpdate(apps[..k], a, x);
    }
  }

  lemma {:induction false} DoneAll(apps: seq<App>)
    ensures Done(apps) <= |apps|
    ensures Done(apps) == |apps| <==> forall a :: 0 <= a < |apps| ==> apps[a].finishes > 0
  {
    if apps != [] {
      DoneAll(apps[..|apps| - 1]);
      assert forall a :: 0 <= a < |apps| - 1 ==> apps[a] == apps[..|apps| - 1][a];
    }
  }

  lemma UpdateKeepsInv(x: App, started: bool, p: nat, progress: int, byReply: bool)
    requires AppInv(x, started) && p < |x.parts|
    requires byReply || x.skipped
    ensures AppInv(Update(x, p, progress, byReply), started)
  {
    OccurrencesUpdate(x.parts, p, progress, PROGRESS_FINISHED);
    OccurrencesAll(x.parts, PROGRESS_FINISHED);
  }

  lemma {:induction false} DropKeepsInv(x: App, started: bool, n: nat)
    requires AppInv(x, started) && n <= |x.parts|
    ensures AppInv(DropFirst(x, n), started) && DropFirst(x, n).skipped
    ensures forall p :: 0 <= p < n ==> DropFirst(x, n).parts[p] == PROGRESS_FINISHED
  {
    if n > 0 {
      DropKeepsInv(x, started, n - 1);
      UpdateKeepsInv(DropFirst(x, n - 1), started, n - 1, PROGRESS_FINISHED, false);
    }
  }

  lemma AppStepKeepsInv(x: App, started: bool, current: nat, e: Event)
    requires AppInv(x, started)
    requires e.StartPartition? || e.OnReply? ==> e.p < |x.parts|
    requires e.ContinueApp? ==> !started
    requires e.WriteFlag? ==> x.writing > 0
    requires e.Finish? ==> x.queued > 0
    ensures Sized(x) && AppInv(ApplyOn(x, current, e), started || e.ContinueApp?)
  {
    match e
    case ContinueApp(_, available) => if x.recorded { DropKeepsInv(x, started, x.unfinished); }
    case StartMeta(_, available) => DropKeepsInv(x, started, x.unfinished);
    case StartPartition(_, p, dropped) =>
      if dropped { UpdateKeepsInv(x.(skipped := true), started, p, PROGRESS_FINISHED, false); }
    case OnReply(_, p, r) => UpdateKeepsInv(x, started, p, r.progress, true);
    case WriteFlag(_, written) => OccurrencesAll(x.parts, PROGRESS_FINISHED);
    case Finish(_, _) =>
  }

  lemma StartInv(partitions: seq<Option<nat>>)
    ensures Inv(Start(partitions), {})
  {
    var s := Start(partitions);
    forall a | 0 <= a < |s.apps| ensures AppInv(s.apps[a], false) && s.apps[a].finishes == 0 {
      OccurrencesNone(s.apps[a].parts, PROGRESS_FINISHED);
    }
    DoneNone(s.apps);
  }

  lemma {:induction false} DoneNone(apps: seq<App>)
    requires forall a :: 0 <= a < |apps| ==> apps[a].finishes == 0
    ensures Done(apps) == 0
  {
    if apps != [] { DoneNone(apps[..|apps| - 1]); }
  }

  /** Every step keeps the invariant, and the end time, once set, stays. */
  lemma StepKeepsInv(s: State, started: set<nat>, current: nat, e: Event)
    requires Inv(s, started) && Enabled(s, started, current, e)
    ensures Sized(s.apps[e.a]) && Inv(Apply(s, current, e), Started(started, e))
    ensures s.endTime.Some? ==> Apply(s, current, e).endTime == s.endTime
  {
    var x := s.apps[e.a];
    assert AppInv(x, e.a in started);
    AppStepKeepsInv(x, e.a in started, current, e);
    var y := ApplyOn(x, current, e);
    var t := Apply(s, current, e);
    forall b | 0 <= b < |t.apps| ensures AppInv(t.apps[b], b in Started(started, e)) {
      assert b != e.a ==> AppInv(s.apps[b], b in started);
    }
    DoneUpdate(s.apps, e.a, y);
    FinishesKept(x, current, e);
    DoneAll(s.apps);
    DoneAll(t.apps);
  }

  /** Only the finish step changes how often an app has finished; it runs at most once. */
  lemma FinishesKept(x: App, current: nat, e: Event)
    requires Sized(x)
    requires e.StartPartition? || e.OnReply? ==> e.p < |x.parts|
    requires e.WriteFlag? ==> x.writing > 0
    requires e.Finish? ==> x.queued > 0
    ensures ApplyOn(x, current, e).finishes == x.finishes + if e.Finish? then 1 else 0
  {
    DropKeepsFinishes(x, x.unfinished);
  }

  lemma {:induction false} DropKeepsFinishes(x: App, n: nat)
    requires n <= |x.parts| == |x.reported|
    ensures DropFirst(x, n).finishes == x.finishes
  {
    if n > 0 { DropKeepsFinishes(x, n - 1); }
  }

  lemma {:induction false} RunKeepsInv(s: State, started: set<nat>, current: nat, es: seq<Event>, t: State)
    requires Inv(s, started) && Runs(s, started, current, es, t)
    ensures exists all: set<nat> :: Inv(t, all)
    ensures s.endTime.Some? ==> t.endTime == s.endTime
    decreases |es|
  {
    if es != [] {
      StepKeepsInv(s, started, current, es[0]);
      RunKeepsInv(Apply(s, current, es[0]), Started(started, es[0]), current, es[1..], t);
    }
  }

  /** In every run of one backup instance: the counts are exact, an app's finish step runs at most once, the end
      time is there exactly when all of them have run, and then every recorded partition is finished. The
      finish flag is written only for an app whose partitions were all reported by replicas. */
  lemma ProgressChain(partitions: seq<Option<nat>>, current: nat, es: seq<Event>, t: State)
    requires Runs(Start(partitions), {}, current, es, t)
    ensures forall a :: 0 <= a < |t.apps| ==>
              && t.apps[a].unfinished == Unfinished(t.apps[a])
              && t.apps[a].finishes <= 1
              && (t.apps[a].finishes == 1 ==> AllFinished(t.apps[a]))
              && (t.apps[a].flag ==> AllReported(t.apps[a]))
              && (t.apps[a].finishes == 1 ==> t.apps[a].flag || t.apps[a].skipped)
    ensures t.unfinishedApps == |t.apps| - Done(t.apps)
    ensures t.endTime.Some? <==> t.apps != [] && forall a :: 0 <= a < |t.apps| ==> t.apps[a].finishes == 1
  {
    StartInv(partitions);
    RunKeepsInv(Start(partitions), {}, current, es, t);
    var all: set<nat> :| Inv(t, all);
    forall a | 0 <= a < |t.apps|
      ensures
        && t.apps[a].unfinished == Unfinished(t.apps[a])
        && t.apps[a].finishes <= 1
        && (t.apps[a].finishes == 1 ==> AllFinished(t.apps[a]))
        && (t.apps[a].flag ==> AllReported(t.apps[a]))
        && (t.apps[a].finishes == 1 ==> t.apps[a].flag || t.apps[a].skipped)
    {
      assert AppInv(t.apps[a], a in all);
      OccurrencesAll(t.apps[a].parts, PROGRESS_FINISHED);
    }
    DoneAll(t.apps);
  }

  ghost predicate AllFinished(x: App) {
    forall p :: 0 <= p < |x.parts| ==> x.parts[p] == PROGRESS_FINISHED
  }

  ghost predicate AllReported(x: App) {
    && |x.parts| == |x.reported|
    && forall p :: 0 <= p < |x.parts| ==> x.parts[p] == PROGRESS_FINISHED && x.reported[p]
  }

  // ---- what the replies are responsible for ----------------------------------------------------------

  /** A replica's OK reply, for this backup, that the partition is finished. */
  predicate FinishingReply(e: Event, a: nat, p: nat, current: nat) {
    e.OnReply? && e.a == a && e.p == p && e.reply.ok && e.reply.backupId == current
    && e.reply.progress == PROGRESS_FINISHED
  }

  /** The app was found dropped. */
  predicate FoundDropped(e: Event, a: nat) {
    || (e.ContinueApp? && e.a == a && !e.available)
    || (e.StartMeta? && e.a == a && !e.available)
    || (e.StartPartition? && e.a == a && e.dropped)
  }

  /** An error, or a reply of an older backup, changes nothing; any other one is recorded until the partition is
      finished. */
  lemma ReplyCountsIffCurrent(s: State, started: set<nat>, current: nat, a: nat, p: nat, r: Reply)
    requires Inv(s, started) && Enabled(s, started, current, OnReply(a, p, r))
    ensures Sized(s.apps[a])
    ensures var t := Apply(s, current, OnReply(a, p, r));
            if !r.ok || r.backupId < current || s.apps[a].parts[p] == PROGRESS_FINISHED then t == s
            else |t.apps| == |s.apps| && t.apps[a].parts == s.apps[a].parts[p := r.progress]
  {
    StepKeepsInv(s, started, current, OnReply(a, p, r));
  }

  /** An app found dropped is skipped from then on; found so before any of its partitions is finished, all of them count
      as finished at once, and found so for one partition, that one. */
  lemma DropIsRecorded(s: State, started: set<nat>, current: nat, e: Event)
    requires Inv(s, started) && Enabled(s, started, current, e) && FoundDropped(e, e.a) && s.apps[e.a].recorded
    ensures Sized(s.apps[e.a])
    ensures var x, y := s.apps[e.a], Apply(s, current, e).apps[e.a];
            && y.skipped && |y.parts| == |x.parts|
            && (!e.StartPartition? && x.unfinished == |x.parts| ==> AllFinished(y))
            && (e.StartPartition? ==> y.parts[e.p] == PROGRESS_FINISHED)
  {
    StepKeepsInv(s, started, current, e);
    var x := s.apps[e.a];
    if !e.StartPartition? {
      DropKeepsInv(x, e.a in started, x.unfinished);
    }
  }

  lemma {:induction false} DropFinishes(x: App, n: nat, p: nat)
    requires n <= |x.parts| == |x.reported| && p < |x.parts|
    ensures var y := DropFirst(x, n);
            && (x.parts[p] == PROGRESS_FINISHED ==> y.parts[p] == PROGRESS_FINISHED)
            && (y.reported[p] ==> x.reported[p]) && y.skipped && (p < n ==> y.parts[p] == PROGRESS_FINISHED)
  {
    if n > 0 { DropFinishes(x, n - 1, p); }
  }

  /** How one event of an app may change what is known about its partition p. */
  lemma AppStepReports(x: App, current: nat, e: Event, p: nat)
    requires Sized(x) && p < |x.parts|
    requires e.StartPartition? || e.OnReply? ==> e.p < |x.parts|
    requires e.OnReply? ==> e.reply.backupId <= current
    requires e.WriteFlag? ==> x.writing > 0
    requires e.Finish? ==> x.queued > 0
    ensures var y := ApplyOn(x, current, e);
            && |y.parts| == |y.reported| == |x.parts|
            && (y.reported[p] ==> x.reported[p] || FinishingReply(e, e.a, p, current))
            && (x.parts[p] == PROGRESS_FINISHED || FinishingReply(e, e.a, p, current) ==> y.parts[p] == PROGRESS_FINISHED)
            && (x.recorded ==> (y.skipped <==> x.skipped || FoundDropped(e, e.a)))
  {
    if (e.ContinueApp? && x.recorded) || e.StartMeta? {
      DropFinishes(x, x.unfinished, p);
    }
  }

  ghost predicate AnyFinishing(es: seq<Event>, a: nat, p: nat, current: nat) {
    exists i :: 0 <= i < |es| && FinishingReply(es[i], a, p, current)
  }

  ghost predicate AnyDropped(es: seq<Event>, a: nat) {
    exists i :: 0 <= i < |es| && FoundDropped(es[i], a)
  }

  lemma AnyInFirstOrRest(es: seq<Event>, a: nat, p: nat, current: nat)
    requires es != []
    ensures AnyFinishing(es, a, p, current) <==>
            FinishingReply(es[0], a, p, current) || AnyFinishing(es[1..], a, p, current)
    ensures AnyDropped(es, a) <==> FoundDropped(es[0], a) || AnyDropped(es[1..], a)
  {
    assert forall i :: 1 <= i < |es| ==> es[1..][i - 1] == es[i];
  }

  lemma {:induction false} RunReports(s: State, started: set<nat>, current: nat, es: seq<Event>, t: State, a: nat, p: nat)
    requires Inv(s, started) && Runs(s, started, current, es, t) && a < |s.apps| && p < |s.apps[a].parts|
    ensures |t.apps| == |s.apps| && |t.apps[a].parts| == |t.apps[a].reported| == |s.apps[a].parts|
    ensures t.apps[a].reported[p] ==>
              s.apps[a].reported[p] || AnyFinishing(es, a, p, current)
    ensures s.apps[a].parts[p] == PROGRESS_FINISHED || AnyFinishing(es, a, p, current)
            ==> t.apps[a].parts[p] == PROGRESS_FINISHED
    ensures s.apps[a].recorded ==> (t.apps[a].skipped <==> s.apps[a].skipped || AnyDropped(es, a))
    decreases |es|
  {
    assert AppInv(s.apps[a], a in started);
    if es != [] {
      var e, u := es[0], Apply(s, current, es[0]);
      if e.a == a {
        AppStepReports(s.apps[a], current, e, p);
        StaysRecorded(s.apps[a], current, e);
      }
      StepKeepsInv(s, started, current, e);
      RunReports(u, Started(started, e), current, es[1..], t, a, p);
      AnyInFirstOrRest(es, a, p, current);
    }
  }

  lemma StaysRecorded(x: App, current: nat, e: Event)
    requires Sized(x)
    requires e.StartPartition? || e.OnReply? ==> e.p < |x.parts|
    requires e.WriteFlag? ==> x.writing > 0
    requires e.Finish? ==> x.queued > 0
    ensures ApplyOn(x, current, e).recorded == x.recorded
  {
    DropStaysRecorded(x, x.unfinished);
  }

  lemma {:induction false} DropStaysRecorded(x: App, n: nat)
    requires n <= |x.parts| == |x.reported|
    ensures DropFirst(x, n).recorded == x.recorded
  {
    if n > 0 { DropStaysRecorded(x, n - 1); }
  }

  /** In every run: a partition counts as reported only after an OK reply for this backup has said that it is finished,
      as it does before the finish flag of its app is written; every such reply finishes it; and a partition that is
      finished without one belongs to an app that was found dropped. */
  lemma FinishedByReplies(partitions: seq<Option<nat>>, current: nat, es: seq<Event>, t: State, a: nat, p: nat)
    requires Runs(Start(partitions), {}, current, es, t)
    requires a < |partitions| && partitions[a].Some? && p < partitions[a].value
    ensures |t.apps| == |partitions| && |t.apps[a].parts| == |t.apps[a].reported| == partitions[a].value
    ensures t.apps[a].reported[p] || t.apps[a].flag ==>
              AnyFinishing(es, a, p, current)
    ensures AnyFinishing(es, a, p, current) ==>
              t.apps[a].parts[p] == PROGRESS_FINISHED
    ensures t.apps[a].skipped <==> AnyDropped(es, a)
    ensures t.apps[a].parts[p] == PROGRESS_FINISHED && !t.apps[a].reported[p] ==> AnyDropped(es, a)
  {
    StartInv(partitions);
    RunReports(Start(partitions), {}, current, es, t, a, p);
    RunKeepsInv(Start(partitions), {}, current, es, t);
    var all: set<nat> :| Inv(t, all);
    assert AppInv(t.apps[a], a in all);
  }

  // ---- the policy context ----------------------------------------------------------------------------

  class PolicyContext {
    const backupId: nat
    var apps: seq<App>
    var unfinishedApps: int
    var endTime: Option<nat>

    ghost function Now(): State
      reads this
    {
      State(apps, unfinishedApps, endTime)
    }

    constructor (id: nat, partitions: seq<Option<nat>>)
      ensures backupId == id && Now() == Start(partitions)
    {
      backupId, unfinishedApps, endTime := id, |partitions|, None;
      apps := seq(|partitions|, a requires 0 <= a < |partitions| => Fresh(partitions[a]));
    }

    method UpdatePartitionProgress(a: nat, p: nat, progress: int, byReply: bool) returns (finished: bool)
      requires a < |apps| && p < |apps[a].parts| == |apps[a].reported|
      modifies `apps
      ensures apps == old(apps)[a := Update(old(apps)[a], p, progress, byReply)]
      ensures finished == (apps[a].parts[p] == PROGRESS_FINISHED)
    {
      var x := apps[a];
      if x.parts[p] == PROGRESS_FINISHED { return true; }
      x := x.(parts := x.parts[p := progress]);
      if progress == PROGRESS_FINISHED {
        x := x.(reported := x.reported[p := byReply], unfinished := x.unfinished - 1);
        if x.unfinished == 0 {
          x := x.(writing := x.writing + 1);
        }
      }
      apps := apps[a := x];
      finished := progress == PROGRESS_FINISHED;
    }

    method StartMeta(a: nat, available: bool)
      requires a < |apps| && Sized(apps[a])
      modifies `apps
      ensures apps == old(apps)[a := StartAppMeta(old(apps)[a], available)]
    {
      if available { return; }
      var total := apps[a].unfinished;
      apps := apps[a := apps[a].(skipped := true)];
      for p := 0 to total
        invariant |apps| == |old(apps)|
        invariant apps == old(apps)[a := DropFirst(old(apps)[a], p)]
      {
        var _ := UpdatePartitionProgress(a, p, PROGRESS_FINISHED, false);
      }
    }

    method StartPartition(a: nat, p: nat, dropped: bool)
      requires a < |apps| && p < |apps[a].parts| == |apps[a].reported|
      modifies `apps
      ensures apps == old(apps)[a := StartAppPartition(old(apps)[a], p, dropped)]
    {
      if dropped {
        apps := apps[a := apps[a].(skipped := true)];
        var _ := UpdatePartitionProgress(a, p, PROGRESS_FINISHED, false);
      }
    }

    /** A result of true starts another turn for the partition. */
    method OnBackupReply(a: nat, p: nat, r: Reply) returns (again: bool)
      requires a < |apps| && p < |apps[a].parts| == |apps[a].reported| && r.backupId <= backupId
      modifies `apps
      ensures apps == old(apps)[a := BackupReply(old(apps)[a], p, backupId, r)]
      ensures !r.ok || r.backupId < backupId ==> again && apps == old(apps)
      ensures !again ==> apps[a].parts[p] == PROGRESS_FINISHED
    {
      if r.ok && r.backupId >= backupId {
        var finished := UpdatePartitionProgress(a, p, r.progress, true);
        return !finished;
      }
      again := true;
    }

    /** One attempt of write_backup_app_finish_flag_unlocked; a result of true tries again later. */
    method WriteFlagOnce(a: nat, written: bool) returns (again: bool)
      requires a < |apps| && apps[a].writing > 0
      modifies `apps
      ensures apps == old(apps)[a := WriteFinishFlag(old(apps)[a], written)]
      ensures again <==> apps[a].writing == old(apps)[a].writing
    {
      var x := apps[a];
      if !x.skipped {
        if !written { return true; }
        x := x.(flag := true);
      }
      apps := apps[a := x.(writing := x.writing - 1, queued := x.queued + 1)];
      again := false;
    }

    method FinishBackupApp(a: nat, now: nat)
      requires a < |apps| && apps[a].queued > 0 && Sized(apps[a])
      modifies this
      ensures Now() == Apply(old(Now()), backupId, Finish(a, now))
    {
      apps := apps[a := apps[a].(queued := apps[a].queued - 1, finishes := apps[a].finishes + 1)];
      unfinishedApps := unfinishedApps - 1;
      if unfinishedApps == 0 {
        endTime := Some(now);
      }
    }

    /** continue_current_backup_unlocked */
    method ContinueCurrentBackup(available: seq<bool>)
      requires |available| == |apps| && forall a :: 0 <= a < |apps| ==> Sized(apps[a])
      modifies `apps
      ensures |apps| == |old(apps)|
      ensures forall a :: 0 <= a < |apps| ==>
                apps[a] == ApplyOn(old(apps)[a], backupId, ContinueApp(a, available[a]))
    {
      for i := 0 to |apps|
        invariant |apps| == |old(apps)|
        invariant forall a :: 0 <= a < i ==>
                    apps[a] == ApplyOn(old(apps)[a], backupId, ContinueApp(a, available[a]))
        invariant forall a :: i <= a < |apps| ==> apps[a] == old(apps)[a]
      {
        if apps[i].recorded {
          StartMeta(i, available[i]);
        } else {
          apps := apps[i := apps[i].(writing := apps[i].writing + 1)];
        }
      }
    }
  }
}
