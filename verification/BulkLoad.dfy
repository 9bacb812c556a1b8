/** The status machine of one app's bulk load (meta_bulk_load_service.cpp): every partition walks through
    the stages, each step is first written to remote storage, and a shared counter decides when the app may
    follow. Runs start once all partition nodes exist and meet no failure, rollback or control request. */
module BulkLoad {
  import opened Counting

  datatype Status = Downloading | Downloaded | Ingesting | Succeed

  function Next(s: Status): Status {
    match s
    case Downloading => Downloaded
    case Downloaded => Ingesting
    case Ingesting => Succeed
    case Succeed => Succeed
  }

  /** A write to remote storage: not pending, on its way, or applied with its callback still to come. */
  datatype Write = Idle | InFlight(status: Status) | Written(status: Status)

  /** The one reply handler of a partition reads the app status and acts on it later. */
  datatype Handler = Waiting | HasRead(status: Status)

  /** A partition is cleaned up (_partitions_cleaned_up), and afterwards taken off the counter. */
  datatype Clean = NotCleaned | Marked | Counted

  datatype State = State(
    app: Status, appWrite: Write, count: int,
    part: seq<Status>, partWrite: seq<Write>, handler: seq<Handler>, clean: seq<Clean>,
    storedApp: Status, storedPart: seq<Status>,
    removing: bool)

  datatype Event =
    | Read(i: nat)                  // the reply handler reads the app status
    | Act(i: nat, done: bool)       // and acts on it; `done`: the stage is finished, or cleaned up
    | TakeOff(i: nat)               // the counter goes down after a clean-up
    | StorePartition(i: nat)
    | PartitionStored(i: nat)       // callback of the partition's write
    | StoreApp
    | AppStored                     // callback of the app's write
    | Crash                         // the meta server restarts from remote storage

  // ---- the handlers --------------------------------------------------------------------------------

  function UpdatePartition(s: State, i: nat, status: Status): State
    requires i < |s.part| == |s.partWrite|
  {
    if s.part[i] == status || s.partWrite[i] != Idle then s
    else s.(partWrite := s.partWrite[i := InFlight(status)])
  }

  /** The second result says that the update has to be tried again later. */
  function UpdateApp(s: State, status: Status): (State, bool) {
    if s.app == status then (s, false)
    else if s.appWrite != Idle then (s, true)
    else (s.(appWrite := InFlight(status)), false)
  }

  function PartitionReply(s: State, i: nat, status: Status): (State, bool)
    requires i < |s.part| == |s.partWrite|
  {
    var t := s.(part := s.part[i := status], partWrite := s.partWrite[i := Idle]);
    if s.part[i] == status then (t, false)
    else if s.count - 1 == 0 then UpdateApp(t.(count := 0), status)
    else (t.(count := s.count - 1), false)
  }

  function HandleFinish(s: State, i: nat, done: bool): State
    requires i < |s.clean|
  {
    if s.clean[i] != NotCleaned || !done then s else s.(clean := s.clean[i := Marked])
  }

  function ActOn(s: State, i: nat, seen: Status, done: bool): State
    requires i < |s.part| == |s.partWrite| == |s.clean|
  {
    match seen
    case Downloading => if done then UpdatePartition(s, i, Downloaded) else s
    case Downloaded => UpdatePartition(s, i, Ingesting)
    case Ingesting => if done then UpdatePartition(s, i, Succeed) else s
    case Succeed => HandleFinish(s, i, done)
  }

  // ---- recovery --------------------------------------------------------------------------------------

  predicate ValidateApp(partitionCount: nat, recordedCount: nat, status: Status, pinfoCount: nat) {
    && partitionCount == recordedCount && partitionCount >= pinfoCount
    && (pinfoCount == partitionCount || status == Downloading)
  }

  predicate ValidatePartition(partitionCount: nat, status: Status, parts: seq<Status>, differentCount: nat) {
    match status
    case Downloading => partitionCount == |parts| || differentCount == 0
    case Downloaded => forall i :: 0 <= i < |parts| ==> parts[i] == Downloaded || parts[i] == Ingesting
    case Ingesting => forall i :: 0 <= i < |parts| ==> parts[i] == Ingesting || parts[i] == Succeed
    case Succeed => differentCount == 0
  }

  function DifferentCount(status: Status, parts: seq<Status>): nat {
    |parts| - Occurrences(parts, status)
  }

  function RecoveredCount(partitionCount: nat, status: Status, parts: seq<Status>): int {
    var different := DifferentCount(status, parts);
    if status == Downloading then
      (if partitionCount - |parts| > 0 then partitionCount - |parts|
       else if different > 0 then different else partitionCount)
    else |parts| - different
  }

  function Recover(s: State): State {
    var n := |s.storedPart|;
    s.(app := s.storedApp, part := s.storedPart, appWrite := Idle, removing := false,
       partWrite := seq(n, _ => Idle), handler := seq(n, _ => Waiting), clean := seq(n, _ => NotCleaned),
       count := RecoveredCount(n, s.storedApp, s.storedPart))
  }

  // ---- runs ------------------------------------------------------------------------------------------

  predicate Shape(s: State) {
    |s.part| == |s.partWrite| == |s.handler| == |s.clean| == |s.storedPart|
  }

  predicate Enabled(s: State, e: Event)
    requires Shape(s)
  {
    match e
    case Read(i) => i < |s.part| && s.handler[i].Waiting?
    case Act(i, _) => i < |s.part| && s.handler[i].HasRead?
    case TakeOff(i) => i < |s.part| && s.clean[i] == Marked
    case StorePartition(i) => i < |s.part| && s.partWrite[i].InFlight?
    case PartitionStored(i) => i < |s.part| && s.partWrite[i].Written?
    case StoreApp => s.appWrite.InFlight?
    case AppStored => s.appWrite.Written?
    case Crash => s.storedApp == Downloading ==> forall i :: 0 <= i < |s.part| ==> s.storedPart[i] == Downloading
  }

  function Apply(s: State, e: Event): (t: State)
    requires Shape(s) && Enabled(s, e)
    ensures Shape(t)
  {
    match e
    case Read(i) => s.(handler := s.handler[i := HasRead(s.app)])
    case Act(i, done) => ActOn(s.(handler := s.handler[i := Waiting]), i, s.handler[i].status, done)
    case TakeOff(i) => s.(clean := s.clean[i := Counted], count := s.count - 1, removing := s.removing || s.count - 1 == 0)
    case StorePartition(i) => s.(partWrite := s.partWrite[i := Written(s.partWrite[i].status)],
                                 storedPart := s.storedPart[i := s.partWrite[i].status])
    case PartitionStored(i) => PartitionReply(s, i, s.partWrite[i].status).0
    case StoreApp => s.(appWrite := Written(s.appWrite.status), storedApp := s.appWrite.status)
    case AppStored => s.(app := s.appWrite.status, appWrite := Idle, count := |s.part|)
    case Crash => Recover(s)
  }

  predicate Initial(s: State) {
    && Shape(s) && s.part != [] && s.app == s.storedApp == Downloading && s.appWrite == Idle && !s.removing
    && s.count == |s.part|
    && forall i :: 0 <= i < |s.part| ==>
         s.part[i] == s.storedPart[i] == Downloading && s.partWrite[i] == Idle
         && s.handler[i] == Waiting && s.clean[i] == NotCleaned
  }

  ghost predicate Runs(s: State, es: seq<Event>, t: State)
    requires Shape(s)
    decreases |es|
  {
    if es == [] then s == t else Enabled(s, es[0]) && Runs(Apply(s, es[0]), es[1..], t)
  }

  // ---- the invariant ---------------------------------------------------------------------------------

  /** One partition agrees with the app status `a`. */
  ghost predicate PartitionInv(a: Status, part: Status, w: Write, h: Handler, c: Clean, stored: Status) {
    && (part == a || part == Next(a))
    && (w.Idle? ==> stored == part)
    && (w.InFlight? ==> w.status == Next(a) && part == a != Next(a) && stored == part)
    && (w.Written? ==> w.status == Next(a) && part == a != Next(a) && stored == Next(a))
    && (h.HasRead? ==> h.status == a || (Next(h.status) == a && part == a && w.Idle?))
    && (a != Succeed ==> c == NotCleaned)
  }

  /** The app's write is pending only once every partition is at the next status. */
  ghost predicate AppInv(s: State) {
    match s.appWrite
    case Idle => s.storedApp == s.app
    case InFlight(x) => x == Next(s.app) != s.app && s.storedApp == s.app && AllAt(s.part, x)
    case Written(x) => x == Next(s.app) != s.app && s.storedApp == x && AllAt(s.part, x)
  }

  ghost predicate AllAt(part: seq<Status>, x: Status) {
    forall i :: 0 <= i < |part| ==> part[i] == x
  }

  /** The counter: partitions still at the app's status, or, at the end, those not yet taken off. */
  ghost predicate CountInv(s: State) {
    s.count == if s.app == Succeed then |s.clean| - Occurrences(s.clean, Counted) else Occurrences(s.part, s.app)
  }

  ghost predicate Inv(s: State) {
    && Shape(s) && s.part != []
    && (forall i :: 0 <= i < |s.part| ==>
          PartitionInv(s.app, s.part[i], s.partWrite[i], s.handler[i], s.clean[i], s.storedPart[i]))
    && AppInv(s) && CountInv(s)
    && (s.removing ==> s.app == Succeed && AllCounted(s.clean))
  }

  ghost predicate AllCounted(clean: seq<Clean>) {
    forall i :: 0 <= i < |clean| ==> clean[i] == Counted
  }

  lemma InitialInv(s: State)
    requires Initial(s)
    ensures Inv(s)
  {
    OccurrencesAll(s.part, Downloading);
  }

  /** A change to one partition that leaves its status, and the app, alone. */
  lemma LocalKeepsInv(s: State, t: State, i: nat)
    requires Inv(s) && Shape(t) && |t.part| == |s.part| && i < |s.part|
    requires t.app == s.app && t.appWrite == s.appWrite && t.storedApp == s.storedApp && t.removing == s.removing
    requires t.part == s.part && CountInv(t)
    requires s.removing ==> t.clean == s.clean
    requires forall k :: 0 <= k < |s.part| && k != i ==>
               t.partWrite[k] == s.partWrite[k] && t.handler[k] == s.handler[k]
               && t.clean[k] == s.clean[k] && t.storedPart[k] == s.storedPart[k]
    requires PartitionInv(s.app, t.part[i], t.partWrite[i], t.handler[i], t.clean[i], t.storedPart[i])
    ensures Inv(t)
  {}

  lemma UpdateKeepsInv(s: State, i: nat, status: Status)
    requires Inv(s) && i < |s.part| && s.handler[i].Waiting?
    requires (status == Next(s.app) && s.app != Succeed) || s.part[i] == status
    ensures Inv(UpdatePartition(s, i, status))
  {}

  lemma FinishKeepsInv(s: State, i: nat, done: bool)
    requires Inv(s) && i < |s.part| && s.app == Succeed
    ensures Inv(HandleFinish(s, i, done))
  {
    assert PartitionInv(s.app, s.part[i], s.partWrite[i], s.handler[i], s.clean[i], s.storedPart[i]);
    OccurrencesUpdate(s.clean, i, Marked, Counted);
    LocalKeepsInv(s, HandleFinish(s, i, done), i);
  }

  lemma ActKeepsInv(s: State, i: nat, done: bool)
    requires Inv(s) && Enabled(s, Act(i, done))
    ensures Inv(Apply(s, Act(i, done)))
  {
    var r, seen := s.(handler := s.handler[i := Waiting]), s.handler[i].status;
    assert PartitionInv(s.app, s.part[i], s.partWrite[i], s.handler[i], s.clean[i], s.storedPart[i]);
    LocalKeepsInv(s, r, i);
    if seen == Succeed {
      FinishKeepsInv(r, i, done);
    } else {
      UpdateKeepsInv(r, i, Next(seen));
    }
  }

  lemma TakeOffKeepsInv(s: State, i: nat)
    requires Inv(s) && Enabled(s, TakeOff(i))
    ensures Inv(Apply(s, TakeOff(i)))
  {
    var t := Apply(s, TakeOff(i));
    assert PartitionInv(s.app, s.part[i], s.partWrite[i], s.handler[i], s.clean[i], s.storedPart[i]);
    OccurrencesUpdate(s.clean, i, Counted, Counted);
    OccurrencesAll(t.clean, Counted);
    assert !s.removing;
    LocalKeepsInv(s, t.(removing := false), i);
  }

  /** The callback of a partition's write: the counter follows, and the app's write starts when it is 0. */
  lemma PartitionStoredKeepsInv(s: State, i: nat)
    requires Inv(s) && Enabled(s, PartitionStored(i))
    ensures Inv(Apply(s, PartitionStored(i)))
    ensures !PartitionReply(s, i, s.partWrite[i].status).1
  {
    var t := Apply(s, PartitionStored(i));
    var next := s.partWrite[i].status;
    assert PartitionInv(s.app, s.part[i], s.partWrite[i], s.handler[i], s.clean[i], s.storedPart[i]);
    assert s.appWrite == Idle && next == Next(s.app) && s.app != Succeed;
    OccurrencesUpdate(s.part, i, next, s.app);
    assert t.part == s.part[i := next];
    OccurrencesNone(t.part, s.app);
    forall k | 0 <= k < |t.part|
      ensures PartitionInv(t.app, t.part[k], t.partWrite[k], t.handler[k], t.clean[k], t.storedPart[k])
      ensures t.count == 0 ==> t.part[k] == next
    {
      assert PartitionInv(s.app, s.part[k], s.partWrite[k], s.handler[k], s.clean[k], s.storedPart[k]);
    }
  }

  /** The app enters a status only when every partition is there. */
  lemma AppStoredKeepsInv(s: State)
    requires Inv(s) && Enabled(s, AppStored)
    ensures Inv(Apply(s, AppStored)) && AllAt(s.part, Apply(s, AppStored).app)
  {
    var t := Apply(s, AppStored);
    forall k | 0 <= k < |t.part|
      ensures PartitionInv(t.app, t.part[k], t.partWrite[k], t.handler[k], t.clean[k], t.storedPart[k])
      ensures t.clean[k] != Counted
    {
      assert PartitionInv(s.app, s.part[k], s.partWrite[k], s.handler[k], s.clean[k], s.storedPart[k]);
    }
    OccurrencesAll(t.part, t.app);
    OccurrencesNone(t.clean, Counted);
  }

  ghost predicate AllThere(n: nat, status: Status, parts: seq<Status>) {
    && |parts| == n
    && (status == Downloading || forall i :: 0 <= i < |parts| ==>
          parts[i] == status || (status != Succeed && parts[i] == Next(status)))
  }

  ghost predicate SomeMissing(n: nat, status: Status, parts: seq<Status>) {
    |parts| < n && status == Downloading && AllAt(parts, Downloading)
  }

  /** What both validations accept: all partition nodes, each at the app's status or the next unless the app is
      downloading; or fewer nodes, all downloading. */
  lemma ValidationIsExact(n: nat, recorded: nat, status: Status, parts: seq<Status>)
    ensures (ValidateApp(n, recorded, status, |parts|)
             && ValidatePartition(n, status, parts, DifferentCount(status, parts)))
            <==> (n == recorded && (AllThere(n, status, parts) || SomeMissing(n, status, parts)))
  {
    OccurrencesAll(parts, status);
  }

  /** Whatever is in remote storage at a crash passes both validations. */
  lemma StoredStateIsValid(s: State)
    requires Inv(s)
    ensures var n := |s.part|;
            && ValidateApp(n, n, s.storedApp, |s.storedPart|)
            && ValidatePartition(n, s.storedApp, s.storedPart, DifferentCount(s.storedApp, s.storedPart))
    ensures forall i :: 0 <= i < |s.part| ==>
              s.storedPart[i] == s.storedApp || (s.storedApp != Succeed && s.storedPart[i] == Next(s.storedApp))
  {
    forall i | 0 <= i < |s.part|
      ensures s.storedPart[i] == s.storedApp || (s.storedApp != Succeed && s.storedPart[i] == Next(s.storedApp))
    {
      assert PartitionInv(s.app, s.part[i], s.partWrite[i], s.handler[i], s.clean[i], s.storedPart[i]);
    }
    OccurrencesAll(s.storedPart, s.storedApp);
  }

  /** Recovery restores the counter exactly when the app is past downloading, or no partition is, or just
      half of them are. */
  lemma RecoveryRestoresCount(status: Status, parts: seq<Status>)
    ensures RecoveredCount(|parts|, status, parts) == Occurrences(parts, status) <==>
            var different := DifferentCount(status, parts);
            status != Downloading || different == 0 || 2 * different == |parts|
  {}

  /** With partition nodes missing, whatever validation accepts recovers to the number of nodes to be created; only when
      there are none at all is this the number of partitions to be downloaded. */
  lemma RecoveryCountsMissing(n: nat, recorded: nat, status: Status, parts: seq<Status>)
    requires ValidateApp(n, recorded, status, |parts|)
    requires ValidatePartition(n, status, parts, DifferentCount(status, parts)) && |parts| < n
    ensures SomeMissing(n, status, parts) && RecoveredCount(n, status, parts) + |parts| == n
    ensures RecoveredCount(n, status, parts) == n <==> parts == []
  {
    ValidationIsExact(n, recorded, status, parts);
  }

  function Fresh(n: nat): State {
    State(Downloading, Idle, n, seq(n, _ => Downloading), seq(n, _ => Idle), seq(n, _ => Waiting), seq(n, _ => NotCleaned),
          Downloading, seq(n, _ => Downloading), false)
  }

  /** One of three partitions has just been stored as downloaded. */
  lemma OneOfThreeStored() returns (es: seq<Event>, t: State)
    ensures Initial(Fresh(3)) && Runs(Fresh(3), es, t)
    ensures t.storedApp == Downloading && t.storedPart == Fresh(3).storedPart[0 := Downloaded]
  {
    var s := Fresh(3);
    es := [Read(0), Act(0, true), StorePartition(0)];
    var s1 := Apply(s, es[0]);
    var s2 := Apply(s1, es[1]);
    t := Apply(s2, es[2]);
    assert Runs(t, [], t);
    assert Runs(s2, es[2..], t) by { assert es[2..][0] == es[2] && es[2..][1..] == []; }
    assert Runs(s1, es[1..], t) by { assert es[1..][0] == es[1] && es[1..][1..] == es[2..]; }
  }

  /** Where it fails: after that run, recovery counts one, while two are still downloading. */
  lemma RecoveryMayMiscount() returns (es: seq<Event>, t: State)
    ensures Initial(Fresh(3)) && Runs(Fresh(3), es, t)
    ensures Recover(t).app == Downloading && Recover(t).count == 1 && Occurrences(Recover(t).part, Downloading) == 2
  {
    es, t := OneOfThreeStored();
    OccurrencesUpdate(Fresh(3).storedPart, 0, Downloaded, Downloading);
    OccurrencesAll(Fresh(3).storedPart, Downloading);
  }

  lemma CrashKeepsInv(s: State)
    requires Inv(s) && Enabled(s, Crash)
    ensures Inv(Recover(s))
  {
    var t := Recover(s);
    StoredStateIsValid(s);
    OccurrencesAll(s.storedPart, s.storedApp);
    OccurrencesNone(t.clean, Counted);
    forall k | 0 <= k < |t.part|
      ensures PartitionInv(t.app, t.part[k], t.partWrite[k], t.handler[k], t.clean[k], t.storedPart[k])
    {
      assert t.part[k] == s.storedPart[k];
    }
  }

  lemma StepKeepsInv(s: State, e: Event)
    requires Inv(s) && Enabled(s, e)
    ensures Inv(Apply(s, e))
  {
    match e
    case Read(i) =>
      assert PartitionInv(s.app, s.part[i], s.partWrite[i], s.handler[i], s.clean[i], s.storedPart[i]);
      LocalKeepsInv(s, Apply(s, e), i);
    case Act(i, done) => ActKeepsInv(s, i, done);
    case TakeOff(i) => TakeOffKeepsInv(s, i);
    case StorePartition(i) =>
      assert PartitionInv(s.app, s.part[i], s.partWrite[i], s.handler[i], s.clean[i], s.storedPart[i]);
      LocalKeepsInv(s, Apply(s, e), i);
    case PartitionStored(i) => PartitionStoredKeepsInv(s, i);
    case StoreApp =>
    case AppStored => AppStoredKeepsInv(s);
    case Crash => CrashKeepsInv(s);
  }

  /** In every run, crashes included: the counter is exact, the app is at most one status behind its
      partitions, and the bulk load directory is removed only when every partition has been cleaned up. */
  lemma {:induction false} RunKeepsInv(s: State, es: seq<Event>, t: State)
    requires Inv(s) && Runs(s, es, t)
    ensures Inv(t)
    decreases |es|
  {
    if es != [] {
      StepKeepsInv(s, es[0]);
      RunKeepsInv(Apply(s, es[0]), es[1..], t);
    }
  }

  lemma CounterIsExact(s: State, es: seq<Event>, t: State)
    requires Initial(s) && Runs(s, es, t)
    ensures Shape(t) && CountInv(t)
    ensures forall i :: 0 <= i < |t.part| ==> t.part[i] == t.app || t.part[i] == Next(t.app)
    ensures t.removing ==> AllCounted(t.clean)
  {
    InitialInv(s);
    RunKeepsInv(s, es, t);
    forall i | 0 <= i < |t.part| ensures t.part[i] == t.app || t.part[i] == Next(t.app) {
      assert PartitionInv(t.app, t.part[i], t.partWrite[i], t.handler[i], t.clean[i], t.storedPart[i]);
    }
  }
}
