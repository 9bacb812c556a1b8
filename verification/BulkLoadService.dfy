/** The bulk load service's in-memory fields for one app, edited in place by its handlers. Each handler is
    tied to the step of the protocol it carries out. */
module BulkLoadService {
  import opened BulkLoad
  import opened Options
  import opened Counting

  class Service {
    var app: Status               // _app_bulk_load_info
    var appPending: bool          // _apps_pending_sync_flag
    var inProgress: int           // _apps_in_progress_count
    var part: seq<Status>         // _partition_bulk_load_info
    var pending: seq<bool>        // _partitions_pending_sync_flag
    var cleanedUp: seq<bool>      // _partitions_cleaned_up
    ghost var state: State        // with what remote storage holds and how far the handlers are

    /** The fields are those of a state in which the counter is exact. */
    ghost predicate Valid()
      reads this
    {
      Represents(state) && Inv(state)
    }

    /** The fields are those of protocol state `s`; what is stored remotely and the handlers' progress are not
        kept in the service. */
    ghost predicate Represents(s: State)
      reads this
    {
      && Shape(s) && app == s.app && appPending == !s.appWrite.Idle? && inProgress == s.count && part == s.part
      && |pending| == |cleanedUp| == |part|
      && (forall i :: 0 <= i < |part| ==> pending[i] == !s.partWrite[i].Idle?)
      && (forall i :: 0 <= i < |part| ==> cleanedUp[i] == !s.clean[i].NotCleaned?)
    }

    /** update_partition_status_on_remote_storage; a result is the status sent to remote storage. */
    method UpdatePartitionStatus(i: nat, status: Status, ghost s: State) returns (write: Option<Status>)
      requires Represents(s) && i < |part|
      modifies `pending
      ensures Represents(UpdatePartition(s, i, status))
      ensures write == if UpdatePartition(s, i, status) == s then None else Some(status)
    {
      if part[i] == status || pending[i] { return None; }
      pending := pending[i := true];
      write := Some(status);
    }

    /** update_app_status_on_remote_storage_unlocked */
    method UpdateAppStatus(status: Status, ghost s: State) returns (write: Option<Status>, retry: bool)
      requires Represents(s)
      modifies `appPending
      ensures Represents(UpdateApp(s, status).0) && retry == UpdateApp(s, status).1
      ensures write == if UpdateApp(s, status).0 == s then None else Some(status)
    {
      if app == status { return None, false; }
      if appPending { return None, true; }
      appPending := true;
      return Some(status), false;
    }

    /** update_partition_status_on_remote_storage_reply */
    method UpdatePartitionReply(i: nat, status: Status, ghost s: State)
      returns (write: Option<Status>, retry: bool)
      requires Represents(s) && i < |part| && status != Downloading
      modifies `part, `pending, `inProgress, `appPending
      ensures Represents(PartitionReply(s, i, status).0) && retry == PartitionReply(s, i, status).1
      ensures write == if PartitionReply(s, i, status).0.appWrite == s.appWrite then None else Some(status)
    {
      var before := part[i];
      part := part[i := status];
      pending := pending[i := false];
      ghost var t := s.(part := part, partWrite := s.partWrite[i := Idle]);
      if before != status {
        inProgress := inProgress - 1;
        if inProgress == 0 {
          write, retry := UpdateAppStatus(status, t.(count := 0));
          return;
        }
      }
      return None, false;
    }

    /** update_app_status_on_remote_storage_reply */
    method UpdateAppReply(status: Status, ghost s: State)
      requires Represents(s) && s.appWrite == Written(status)
      modifies `app, `appPending, `inProgress
      ensures Represents(Apply(s, AppStored))
    {
      app, appPending, inProgress := status, false, |part|;
    }

    /** The first part of handle_bulk_load_finish; a result of true asks for the second. */
    method MarkCleanedUp(i: nat, done: bool, ghost s: State) returns (marked: bool)
      requires Represents(s) && i < |part|
      modifies `cleanedUp
      ensures Represents(HandleFinish(s, i, done)) && marked == (HandleFinish(s, i, done) != s)
    {
      if cleanedUp[i] { return false; }
      cleanedUp := cleanedUp[i := done];
      marked := done;
    }

    /** The second part; a result of true removes the bulk load directory. */
    method TakeOffCleanedUp(i: nat, ghost s: State) returns (remove: bool)
      requires Represents(s) && i < |part| && s.clean[i] == Marked
      modifies `inProgress
      ensures Represents(Apply(s, TakeOff(i)))
      ensures Apply(s, TakeOff(i)).removing == (s.removing || remove)
    {
      inProgress := inProgress - 1;
      remove := inProgress == 0;
    }

    /** on_partition_bulk_load_reply: what is done on the app status read before, and the write it issues. */
    method OnReply(i: nat, seen: Status, done: bool, ghost s: State) returns (write: Option<Status>)
      requires Represents(s) && i < |part|
      modifies `pending, `cleanedUp
      ensures var t := ActOn(s, i, seen, done);
              Represents(t) && (if write.Some? then t.partWrite[i] == InFlight(write.value) else t.partWrite == s.partWrite)
    {
      write := None;
      match seen {
        case Downloading => if done { write := UpdatePartitionStatus(i, Downloaded, s); }
        case Downloaded => write := UpdatePartitionStatus(i, Ingesting, s);
        case Ingesting => if done { write := UpdatePartitionStatus(i, Succeed, s); }
        case Succeed => var _ := MarkCleanedUp(i, done, s);
      }
    }

    /** do_continue_app_bulk_load, from the statuses read back from remote storage. */
    method Continue(ghost s: State)
      requires Shape(s) && app == s.storedApp && part == s.storedPart
      modifies `appPending, `inProgress, `pending, `cleanedUp
      ensures Represents(Recover(s))
    {
      inProgress := InProgressCount(|part|, app, part);
      appPending, pending, cleanedUp := false, seq(|part|, _ => false), seq(|part|, _ => false);
    }

    // ---- the callbacks: each keeps the counter exact -------------------------------------------------

    constructor (n: nat)
      requires n > 0
      ensures Valid() && state == Fresh(n)
    {
      app, appPending, inProgress := Downloading, false, n;
      part, pending, cleanedUp := seq(n, _ => Downloading), seq(n, _ => false), seq(n, _ => false);
      state := Fresh(n);
      new;
      InitialInv(state);
    }

    /** A reply's handler reads the app's status, */
    method ReadStatus(i: nat) returns (seen: Status)
      requires Valid() && Enabled(state, Read(i))
      modifies `state
      ensures Valid() && state == Apply(old(state), Read(i)) && seen == state.handler[i].status
    {
      seen := app;
      StepKeepsInv(state, Read(i));
      state := Apply(state, Read(i));
    }

    /** and later acts on it. */
    method ActOnReply(i: nat, seen: Status, done: bool) returns (write: Option<Status>)
      requires Valid() && Enabled(state, Act(i, done)) && seen == state.handler[i].status
      modifies `pending, `cleanedUp, `state
      ensures Valid() && state == Apply(old(state), Act(i, done))
      ensures if write.Some? then state.partWrite[i] == InFlight(write.value) else state.partWrite == old(state.partWrite)
    {
      StepKeepsInv(state, Act(i, done));
      write := OnReply(i, seen, done, state.(handler := state.handler[i := Waiting]));
      state := Apply(state, Act(i, done));
    }

    /** A cleaned-up partition comes off the counter; the directory goes with the last one. */
    method FinishPartition(i: nat) returns (remove: bool)
      requires Valid() && Enabled(state, TakeOff(i))
      modifies `inProgress, `state
      ensures Valid() && state == Apply(old(state), TakeOff(i))
      ensures remove ==> AllCounted(state.clean)
    {
      StepKeepsInv(state, TakeOff(i));
      remove := TakeOffCleanedUp(i, state);
      state := Apply(state, TakeOff(i));
    }

    /** The callback of a partition's write; the app's write goes out when all partitions are at the status. */
    method OnPartitionStored(i: nat, status: Status) returns (write: Option<Status>)
      requires Valid() && Enabled(state, PartitionStored(i)) && state.partWrite[i].status == status
      modifies `part, `pending, `inProgress, `appPending, `state
      ensures Valid() && state == Apply(old(state), PartitionStored(i))
      ensures write.Some? <==> AllAt(state.part, status)
      ensures write.Some? ==> write.value == status
    {
      ghost var s := state;
      PartitionStoredKeepsInv(s, i);
      LastOneWrites(s, i);
      var retry;
      write, retry := UpdatePartitionReply(i, status, s);
      state := Apply(state, PartitionStored(i));
    }

    /** The callback of the app's write: the app follows its partitions. */
    method OnAppStored(status: Status)
      requires Valid() && Enabled(state, AppStored) && state.appWrite.status == status
      modifies `app, `appPending, `inProgress, `state
      ensures Valid() && state == Apply(old(state), AppStored) && AllAt(part, app)
    {
      AppStoredKeepsInv(state);
      UpdateAppReply(status, state);
      state := Apply(state, AppStored);
    }

    /** A restart from remote storage. */
    method Restart(storedApp: Status, storedPart: seq<Status>)
      requires Valid() && Enabled(state, Crash) && storedApp == state.storedApp && storedPart == state.storedPart
      modifies this
      ensures Valid() && state == Recover(old(state))
    {
      CrashKeepsInv(state);
      app, part := storedApp, storedPart;
      Continue(state);
      state := Recover(state);
    }

    /** Remote storage takes a write. */
    ghost method Store(e: Event)
      requires Valid() && Enabled(state, e) && (e.StorePartition? || e.StoreApp?)
      modifies `state
      ensures Valid() && state == Apply(old(state), e)
    {
      StepKeepsInv(state, e);
      state := Apply(state, e);
    }
  }

  /** The app's write starts exactly with the last partition. */
  lemma LastOneWrites(s: State, i: nat)
    requires Inv(s) && Enabled(s, PartitionStored(i))
    ensures var t := Apply(s, PartitionStored(i));
            && s.partWrite[i].status != Downloading
            && (t.appWrite != s.appWrite <==> AllAt(t.part, s.partWrite[i].status))
  {
    var t, next := Apply(s, PartitionStored(i)), s.partWrite[i].status;
    PartitionStoredKeepsInv(s, i);
    assert PartitionInv(s.app, s.part[i], s.partWrite[i], s.handler[i], s.clean[i], s.storedPart[i]);
    OccurrencesNone(t.part, s.app);
    forall k | 0 <= k < |t.part| ensures t.part[k] == s.app || t.part[k] == next {
      assert PartitionInv(t.app, t.part[k], t.partWrite[k], t.handler[k], t.clean[k], t.storedPart[k]);
    }
  }

  /** The counter after a restart, also with partition nodes missing. */
  method InProgressCount(partitionCount: nat, status: Status, parts: seq<Status>) returns (count: int)
    ensures count == RecoveredCount(partitionCount, status, parts)
  {
    var different := 0;
    for i := 0 to |parts|
      invariant different == i - Occurrences(parts[..i], status)
    {
      OccurrencesSnoc(parts, i, status);
      if parts[i] != status { different := different + 1; }
    }
    assert parts[..|parts|] == parts;
    var same, invalid := |parts| - different, partitionCount - |parts|;
    count := partitionCount;
    if status == Downloading {
      if invalid > 0 {
        count := invalid;
      } else if different > 0 {
        count := different;
      }
    } else {
      count := same;
    }
  }

  lemma OccurrencesSnoc(xs: seq<Status>, i: nat, x: Status)
    requires i < |xs|
    ensures Occurrences(xs[..i + 1], x) == Occurrences(xs[..i], x) + if xs[i] == x then 1 else 0
  {
    assert xs[..i + 1][..i] == xs[..i];
  }

  /** validate_partition */
  method ValidatePartitions(partitionCount: nat, status: Status, parts: seq<Status>, differentCount: nat)
    returns (valid: bool)
    requires |parts| <= partitionCount
    ensures valid == ValidatePartition(partitionCount, status, parts, differentCount)
  {
    match status {
      case Downloading => valid := !(partitionCount - |parts| > 0 && differentCount > 0);
      case Succeed => valid := differentCount == 0;
      case _ =>
        var other := if status == Downloaded then Ingesting else Succeed;
        for i := 0 to |parts|
          invariant forall k :: 0 <= k < i ==> parts[k] == status || parts[k] == other
        {
          if parts[i] != status && parts[i] != other { return false; }
        }
        valid := true;
    }
  }
}
