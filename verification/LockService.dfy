/** The simple distributed lock service (distributed_lock_service_simple.cpp): one owner, a queue of waiters
    and a version per lock. */
module LockService {
  import opened Options

  datatype Error = ERR_OK | ERR_OBJECT_NOT_FOUND | ERR_RECURSIVE_LOCK | ERR_IO_PENDING | ERR_HOLD_BY_OTHERS

  /** A ticket identifies a call of lock, and with it that call's grant callback. */
  datatype Waiter = Waiter(ticket: nat, owner: string)

  /** The empty string is no owner. */
  datatype LockInfo = LockInfo(owner: string, version: nat, pending: seq<Waiter>)

  /** A grant callback that has been queued, with its arguments. */
  datatype Grant = Grant(ticket: nat, err: Error, owner: string, version: nat)

  // ---- the operations on one lock --------------------------------------------------------------------

  function LockOn(info: Option<LockInfo>, ticket: nat, me: string, create: bool): (Option<LockInfo>, Option<Grant>) {
    match info
    case None =>
      if create then (Some(LockInfo(me, 1, [])), Some(Grant(ticket, ERR_OK, me, 1)))
      else (None, Some(Grant(ticket, ERR_OBJECT_NOT_FOUND, "", 0)))
    case Some(i) =>
      if i.owner == "" then
        (Some(i.(owner := me, version := i.version + 1)), Some(Grant(ticket, ERR_OK, me, i.version + 1)))
      else if i.owner == me then (info, Some(Grant(ticket, ERR_RECURSIVE_LOCK, me, i.version)))
      else (Some(i.(pending := i.pending + [Waiter(ticket, me)])), None)
  }

  /** The first waiter called `me`, or the length. */
  function FirstOf(pending: seq<Waiter>, me: string): (k: nat)
    ensures k <= |pending| && (k < |pending| ==> pending[k].owner == me)
    ensures forall i :: 0 <= i < k ==> pending[i].owner != me
  {
    if pending == [] || pending[0].owner == me then 0 else 1 + FirstOf(pending[1..], me)
  }

  function CancelOn(info: LockInfo, me: string): LockInfo {
    var k := FirstOf(info.pending, me);
    if k == |info.pending| then info else info.(pending := info.pending[..k] + info.pending[k + 1..])
  }

  /** A waiter is told the version from before the change. */
  function UnlockOn(info: LockInfo, me: string): (LockInfo, Option<Grant>) {
    if info.owner != me then (info, None)
    else if info.pending != [] then
      var next := info.pending[0];
      (LockInfo(next.owner, info.version + 1, info.pending[1..]),
       if next.owner != "" then Some(Grant(next.ticket, ERR_OK, next.owner, info.version)) else None)
    else (LockInfo("", info.version + 1, []), None)
  }

  // ---- runs of one lock ------------------------------------------------------------------------------

  /** With the history of the run: the callers' names by ticket, the tickets that became owner in order, those
      that ever stood in line, those cancelled, how often the lock fell free, and the callbacks queued. */
  datatype State = State(info: Option<LockInfo>, names: seq<string>, owners: seq<nat>,
                         arrived: set<nat>, cancelled: set<nat>, freed: nat, grants: seq<Grant>)

  datatype Event = Lock(me: string, create: bool) | Cancel(me: string) | Unlock(me: string)

  function Queued(grants: seq<Grant>, g: Option<Grant>): seq<Grant> {
    if g.Some? then grants + [g.value] else grants
  }

  /** Callers have non-empty names. */
  predicate Enabled(e: Event) {
    e.me != ""
  }

  function ApplyLock(s: State, me: string, create: bool): State {
    var ticket := |s.names|;
    var (info, grant) := LockOn(s.info, ticket, me, create);
    s.(info := info, names := s.names + [me], grants := Queued(s.grants, grant),
       owners := if grant.Some? && grant.value.err == ERR_OK then s.owners + [ticket] else s.owners,
       arrived := if grant.None? || grant.value.err == ERR_OK then s.arrived + {ticket} else s.arrived)
  }

  function ApplyCancel(s: State, me: string): State {
    match s.info
    case None => s
    case Some(i) =>
      var k := FirstOf(i.pending, me);
      s.(info := Some(CancelOn(i, me)),
         cancelled := if k < |i.pending| then s.cancelled + {i.pending[k].ticket} else s.cancelled)
  }

  function ApplyUnlock(s: State, me: string): State {
    match s.info
    case None => s
    case Some(i) =>
      var (info, grant) := UnlockOn(i, me);
      s.(info := Some(info), grants := Queued(s.grants, grant),
         owners := if grant.Some? then s.owners + [grant.value.ticket] else s.owners,
         freed := if i.owner == me && grant.None? then s.freed + 1 else s.freed)
  }

  function Apply(s: State, e: Event): State {
    match e
    case Lock(me, create) => ApplyLock(s, me, create)
    case Cancel(me) => ApplyCancel(s, me)
    case Unlock(me) => ApplyUnlock(s, me)
  }

  function Initial(): State {
    State(None, [], [], {}, {}, 0, [])
  }

  function Run(s: State, es: seq<Event>): State
    decreases |es|
  {
    if es == [] then s else Run(Apply(s, es[0]), es[1..])
  }

  // ---- the invariant ---------------------------------------------------------------------------------

  function Pending(s: State): seq<Waiter> {
    if s.info.Some? then s.info.value.pending else []
  }

  function Tickets(pending: seq<Waiter>): (r: seq<nat>)
    ensures |r| == |pending| && forall i :: 0 <= i < |r| ==> r[i] == pending[i].ticket
  {
    seq(|pending|, i requires 0 <= i < |pending| => pending[i].ticket)
  }

  /** Past owners, the current one, and the waiters, in this order. */
  function Order(s: State): seq<nat> {
    s.owners + Tickets(Pending(s))
  }

  ghost predicate Increasing(xs: seq<nat>) {
    forall i, j :: 0 <= i < j < |xs| ==> xs[i] < xs[j]
  }

  /** Owners follow the order of the calls, minus the cancelled waiters. */
  ghost predicate InOrder(s: State) {
    && Increasing(Order(s))
    && (forall t :: t in Order(s) <==> t in s.arrived && t !in s.cancelled)
    && (forall t :: t in s.arrived ==> t < |s.names|) && s.cancelled <= s.arrived
  }

  /** The owner is the caller whose turn it is; a free lock has no waiters. */
  ghost predicate OwnerInv(s: State) {
    match s.info
    case None => s.owners == [] && s.freed == 0
    case Some(i) =>
      && (i.owner == "" ==> i.pending == [])
      && (i.owner != "" ==> s.owners != [] && s.owners[|s.owners| - 1] < |s.names|
                            && i.owner == s.names[s.owners[|s.owners| - 1]])
      && (forall k :: 0 <= k < |i.pending| ==>
            && i.pending[k].owner != "" && i.pending[k].ticket < |s.names|
            && i.pending[k].owner == s.names[i.pending[k].ticket])
      && i.version == |s.owners| + s.freed
  }

  /** The tickets of the callbacks queued so far. */
  function Calls(grants: seq<Grant>): (r: seq<nat>)
    ensures |r| == |grants| && forall i :: 0 <= i < |r| ==> r[i] == grants[i].ticket
  {
    seq(|grants|, i requires 0 <= i < |grants| => grants[i].ticket)
  }

  /** Each of the tickets below n is in exactly one place: called once, waiting, or cancelled. */
  ghost predicate Settled(n: nat, called: seq<nat>, waiting: seq<nat>, cancelled: set<nat>) {
    && (forall i, j :: 0 <= i < j < |called| ==> called[i] != called[j])
    && (forall t :: t in called ==> t < n && t !in waiting && t !in cancelled)
    && (forall t :: t in waiting ==> t < n && t !in cancelled)
    && (forall t :: t in cancelled ==> t < n)
    && (forall t :: 0 <= t < n ==> t in called || t in waiting || t in cancelled)
  }

  ghost predicate GrantInv(s: State) {
    Settled(|s.names|, Calls(s.grants), Tickets(Pending(s)), s.cancelled)
  }

  ghost predicate Inv(s: State) {
    InOrder(s) && OwnerInv(s) && GrantInv(s)
  }

  // ---- every operation keeps it ----------------------------------------------------------------------

  lemma RemoveFromIncreasing(xs: seq<nat>, n: nat)
    requires Increasing(xs) && n < |xs|
    ensures Increasing(xs[..n] + xs[n + 1..])
    ensures forall x :: x in xs[..n] + xs[n + 1..] <==> x in xs && x != xs[n]
  {}

  /** A call of lock is refused, granted at once, or put in line. */
  datatype Answer = Refused | Granted | Waits

  ghost predicate Answered(s: State, t: State, me: string, a: Answer) {
    var ticket := |s.names|;
    && t.names == s.names + [me] && t.cancelled == s.cancelled
    && Tickets(Pending(t)) == Tickets(Pending(s)) + (if a == Waits then [ticket] else [])
    && t.owners == s.owners + (if a == Granted then [ticket] else [])
    && (a == Granted ==> Pending(s) == [])
    && t.arrived == s.arrived + (if a == Refused then {} else {ticket})
    && Calls(t.grants) == Calls(s.grants) + (if a == Waits then [] else [ticket])
  }

  lemma LockWaits(s: State, me: string, create: bool)
    requires LockOn(s.info, |s.names|, me, create).1.None?
    ensures Answered(s, ApplyLock(s, me, create), me, Waits)
  {}

  lemma LockReplies(s: State, me: string, create: bool, g: Grant)
    requires OwnerInv(s) && LockOn(s.info, |s.names|, me, create).1 == Some(g)
    ensures Answered(s, ApplyLock(s, me, create), me, if g.err == ERR_OK then Granted else Refused)
  {}

  lemma LockAnswers(s: State, me: string, create: bool) returns (a: Answer)
    requires OwnerInv(s)
    ensures Answered(s, ApplyLock(s, me, create), me, a)
  {
    match LockOn(s.info, |s.names|, me, create).1
    case None =>
      a := Waits;
      LockWaits(s, me, create);
    case Some(g) =>
      a := if g.err == ERR_OK then Granted else Refused;
      LockReplies(s, me, create, g);
  }

  lemma LockOrder(s: State, t: State, me: string, a: Answer)
    requires InOrder(s) && Answered(s, t, me, a)
    ensures InOrder(t)
  {
    var ticket := |s.names|;
    assert Order(t) == Order(s) + (if a == Refused then [] else [ticket]);
    assert forall i :: 0 <= i < |Order(s)| ==> Order(s)[i] in Order(s);
  }

  lemma JoinSettles(n: nat, called: seq<nat>, waiting: seq<nat>, cancelled: set<nat>)
    requires Settled(n, called, waiting, cancelled)
    ensures Settled(n + 1, called + [n], waiting, cancelled) && Settled(n + 1, called, waiting + [n], cancelled)
  {
    assert forall i :: 0 <= i < |called| ==> called[i] in called;
  }

  lemma LockGrants(s: State, t: State, me: string, a: Answer)
    requires GrantInv(s) && Answered(s, t, me, a)
    ensures GrantInv(t)
  {
    JoinSettles(|s.names|, Calls(s.grants), Tickets(Pending(s)), s.cancelled);
  }

  lemma LockOwner(s: State, me: string, create: bool)
    requires OwnerInv(s) && me != ""
    ensures OwnerInv(ApplyLock(s, me, create))
  {}

  /** A waiter leaves the line without having been called. */
  ghost predicate Leaves(s: State, t: State, k: nat) {
    && k < |Pending(s)| && Pending(t) == Pending(s)[..k] + Pending(s)[k + 1..]
    && t.names == s.names && t.owners == s.owners && t.arrived == s.arrived && t.grants == s.grants
    && t.cancelled == s.cancelled + {Pending(s)[k].ticket}
  }

  lemma TicketsWithout(pending: seq<Waiter>, k: nat)
    requires k < |pending|
    ensures Tickets(pending[..k] + pending[k + 1..]) == Tickets(pending)[..k] + Tickets(pending)[k + 1..]
  {}

  lemma CancelOrder(s: State, t: State, k: nat)
    requires InOrder(s) && Leaves(s, t, k)
    ensures InOrder(t)
  {
    var n, order := |s.owners| + k, Order(s);
    TicketsWithout(Pending(s), k);
    assert Order(t) == order[..n] + order[n + 1..];
    RemoveFromIncreasing(order, n);
    assert order[n] == Pending(s)[k].ticket && order[n] in order;
  }

  lemma CancelSettles(n: nat, called: seq<nat>, waiting: seq<nat>, cancelled: set<nat>, k: nat)
    requires Settled(n, called, waiting, cancelled) && Increasing(waiting) && k < |waiting|
    ensures Settled(n, called, waiting[..k] + waiting[k + 1..], cancelled + {waiting[k]})
  {
    var left, gone := waiting[..k] + waiting[k + 1..], cancelled + {waiting[k]};
    RemoveFromIncreasing(waiting, k);
    assert waiting[k] in waiting;
    forall t | t in left ensures t < n && t !in gone {
      assert t in waiting;
    }
    forall t | 0 <= t < n ensures t in called || t in left || t in gone {
      assert t in waiting && t != waiting[k] ==> t in left;
    }
  }

  lemma SuffixIncreases(xs: seq<nat>, ys: seq<nat>)
    requires Increasing(xs + ys)
    ensures Increasing(ys)
  {
    var all := xs + ys;
    forall i, j | 0 <= i < j < |ys| ensures ys[i] < ys[j] {
      assert all[|xs| + i] == ys[i] && all[|xs| + j] == ys[j];
    }
  }

  lemma WaitingIncreases(s: State)
    requires InOrder(s)
    ensures Increasing(Tickets(Pending(s)))
  {
    SuffixIncreases(s.owners, Tickets(Pending(s)));
  }

  lemma CancelGrants(s: State, t: State, k: nat)
    requires InOrder(s) && GrantInv(s) && Leaves(s, t, k)
    ensures GrantInv(t)
  {
    TicketsWithout(Pending(s), k);
    WaitingIncreases(s);
    CancelSettles(|s.names|, Calls(s.grants), Tickets(Pending(s)), s.cancelled, k);
  }

  lemma CancelKeepsInv(s: State, me: string)
    requires Inv(s)
    ensures Inv(ApplyCancel(s, me))
  {
    var t := ApplyCancel(s, me);
    if t != s {
      var k := FirstOf(Pending(s), me);
      assert k < |Pending(s)|;
      CancelOrder(s, t, k);
      CancelGrants(s, t, k);
    }
  }

  lemma InSnoc(xs: seq<nat>, x: nat)
    ensures forall t :: t in xs + [x] <==> t in xs || t == x
  {}

  lemma InTail(xs: seq<nat>)
    requires Increasing(xs) && xs != []
    ensures xs[0] in xs && forall t :: t in xs[1..] <==> t in xs && t != xs[0]
  {}

  lemma ServeSettles(n: nat, called: seq<nat>, waiting: seq<nat>, cancelled: set<nat>)
    requires Settled(n, called, waiting, cancelled) && Increasing(waiting) && waiting != []
    ensures Settled(n, called + [waiting[0]], waiting[1..], cancelled)
  {
    InTail(waiting);
    InSnoc(called, waiting[0]);
    var all := called + [waiting[0]];
    forall i, j | 0 <= i < j < |all| ensures all[i] != all[j] {
      assert all[i] == called[i] && called[i] in called;
    }
  }

  /** The first waiter becomes the owner and is called. */
  ghost predicate Serves(s: State, t: State) {
    && Pending(s) != [] && Pending(t) == Pending(s)[1..] && t.owners == s.owners + [Pending(s)[0].ticket]
    && t.names == s.names && t.arrived == s.arrived && t.cancelled == s.cancelled
    && |t.grants| == |s.grants| + 1 && t.grants[..|s.grants|] == s.grants
    && t.grants[|s.grants|].ticket == Pending(s)[0].ticket
  }

  lemma ServeKeeps(s: State, t: State)
    requires InOrder(s) && GrantInv(s) && Serves(s, t)
    ensures InOrder(t) && GrantInv(t)
  {
    var was := Tickets(Pending(s));
    assert Tickets(Pending(t)) == was[1..] && Order(t) == Order(s);
    WaitingIncreases(s);
    ServeSettles(|s.names|, Calls(s.grants), was, s.cancelled);
    assert Calls(t.grants) == Calls(s.grants) + [was[0]];
  }

  lemma UnlockOwner(s: State, me: string)
    requires OwnerInv(s) && me != ""
    ensures OwnerInv(ApplyUnlock(s, me))
    ensures ApplyUnlock(s, me) != s && Pending(s) != [] ==> Serves(s, ApplyUnlock(s, me))
  {}

  lemma UnlockKeepsInv(s: State, me: string)
    requires Inv(s) && me != ""
    ensures Inv(ApplyUnlock(s, me))
  {
    var t := ApplyUnlock(s, me);
    UnlockOwner(s, me);
    if Serves(s, t) {
      ServeKeeps(s, t);
    } else {
      assert Pending(t) == Pending(s);
    }
  }

  lemma StepKeepsInv(s: State, e: Event)
    requires Inv(s) && Enabled(e)
    ensures Inv(Apply(s, e))
  {
    match e
    case Lock(me, create) =>
      var a := LockAnswers(s, me, create);
      LockOrder(s, Apply(s, e), me, a);
      LockGrants(s, Apply(s, e), me, a);
      LockOwner(s, me, create);
    case Cancel(me) => CancelKeepsInv(s, me);
    case Unlock(me) => UnlockKeepsInv(s, me);
  }

  /** In every run: a free lock has no waiters; those who ever owned it, followed by those who wait, are the
      callers in the order of their calls without the cancelled ones; each grant callback is queued at
      most once; and the version counts the changes of ownership. */
  lemma {:induction false} RunKeepsInv(s: State, es: seq<Event>)
    requires Inv(s) && forall e :: e in es ==> Enabled(e)
    ensures Inv(Run(s, es))
    decreases |es|
  {
    if es != [] {
      assert es[0] in es;
      StepKeepsInv(s, es[0]);
      RunKeepsInv(Apply(s, es[0]), es[1..]);
    }
  }

  lemma LocksAreFair(es: seq<Event>)
    requires forall e :: e in es ==> Enabled(e)
    ensures Inv(Run(Initial(), es))
  {
    RunKeepsInv(Initial(), es);
  }

  /** The version rises by one exactly when the ownership changes; the waiter that gets the lock is told one
      less than what a query then returns. */
  lemma VersionCountsChanges(s: State, e: Event)
    requires Inv(s) && Enabled(e) && s.info.Some?
    ensures var t := Apply(s, e);
            && t.info.Some?
            && t.info.value.version - s.info.value.version == |t.owners| - |s.owners| + t.freed - s.freed
            && s.info.value.version <= t.info.value.version <= s.info.value.version + 1
            && (t.info.value.version == s.info.value.version <==> t.owners == s.owners && t.freed == s.freed)
    ensures var t := Apply(s, e);
            e.Unlock? && |t.grants| > |s.grants| ==> t.grants[|s.grants|].version == t.info.value.version - 1
  {}

  // ---- who may change the owner ----------------------------------------------------------------------

  /** Somebody holds the lock. */
  predicate Held(s: State) {
    s.info.Some? && s.info.value.owner != ""
  }

  /** Nothing but an unlock by the owner takes the lock from its owner. */
  lemma OnlyOwnerGivesUp(s: State, e: Event)
    requires Inv(s) && Enabled(e) && Held(s)
    ensures var t := Apply(s, e);
            e != Unlock(s.info.value.owner) ==>
              t.info.Some? && t.info.value.owner == s.info.value.owner && t.owners == s.owners && t.freed == s.freed
  {}

  /** The owner's unlock does take it: the first in line is the owner from then on, or the lock is free. */
  lemma UnlockPassesOn(s: State)
    requires Inv(s) && Held(s)
    ensures var t, line := Apply(s, Unlock(s.info.value.owner)), Pending(s);
            && t.info.Some? && Pending(t) == (if line == [] then [] else line[1..])
            && t.info.value.owner == (if line == [] then "" else line[0].owner)
            && t.owners == s.owners + (if line == [] then [] else [line[0].ticket])
  {}

  /** What a caller gets: a lock that is free or new at once, a place at the end of the line if another one holds it,
      and an error if it holds the lock itself or the lock is not there and not to be created. */
  lemma LockIsGrantedOrWaits(s: State, me: string, create: bool)
    requires Inv(s) && me != ""
    ensures var t, ticket := Apply(s, Lock(me, create)), |s.names|;
            if s.info.None? && !create then
              t.info == None && t.owners == s.owners && t.grants == s.grants + [Grant(ticket, ERR_OBJECT_NOT_FOUND, "", 0)]
            else if !Held(s) then
              && Held(t) && t.info.value.owner == me && t.owners == s.owners + [ticket]
              && t.grants == s.grants + [Grant(ticket, ERR_OK, me, t.info.value.version)]
            else if s.info.value.owner == me then
              t.info == s.info && t.grants == s.grants + [Grant(ticket, ERR_RECURSIVE_LOCK, me, s.info.value.version)]
            else Pending(t) == Pending(s) + [Waiter(ticket, me)] && t.grants == s.grants
  {}

  /** Mutual exclusion, over every run: from the moment a caller owns the lock nobody else does, whatever the others
      call, until it unlocks. */
  lemma {:induction false} OwnerKeepsLock(s: State, es: seq<Event>)
    requires Inv(s) && Held(s) && forall e :: e in es ==> Enabled(e) && e != Unlock(s.info.value.owner)
    ensures var t := Run(s, es);
            t.info.Some? && t.info.value.owner == s.info.value.owner && t.owners == s.owners && t.freed == s.freed
    decreases |es|
  {
    if es != [] {
      assert es[0] in es;
      OnlyOwnerGivesUp(s, es[0]);
      StepKeepsInv(s, es[0]);
      OwnerKeepsLock(Apply(s, es[0]), es[1..]);
    }
  }

  // ---- the service -----------------------------------------------------------------------------------

  /** The grant callbacks of one lock among those of all locks. */
  function GrantsOf(queued: seq<(string, Grant)>, lockId: string): seq<Grant> {
    if queued == [] then []
    else
      var k := |queued| - 1;
      GrantsOf(queued[..k], lockId) + if queued[k].0 == lockId then [queued[k].1] else []
  }

  lemma GrantsOfSnoc(queued: seq<(string, Grant)>, lockId: string, g: Grant)
    ensures GrantsOf(queued + [(lockId, g)], lockId) == GrantsOf(queued, lockId) + [g]
    ensures forall l :: l != lockId ==> GrantsOf(queued + [(lockId, g)], l) == GrantsOf(queued, l)
  {
    assert (queued + [(lockId, g)])[..|queued|] == queued;
  }

  function Enqueued(queued: seq<(string, Grant)>, lockId: string, g: Option<Grant>): seq<(string, Grant)> {
    if g.Some? then queued + [(lockId, g.value)] else queued
  }

  /** All locks, the number of calls of lock on each (they number its grant callbacks), and the callbacks queued. */
  datatype Service = Service(locks: map<string, LockInfo>, calls: map<string, nat>, queued: seq<(string, Grant)>) {
    function Info(lockId: string): Option<LockInfo> {
      if lockId in locks then Some(locks[lockId]) else None
    }

    function CallsOf(lockId: string): nat {
      if lockId in calls then calls[lockId] else 0
    }
  }

  function Serve(v: Service, lockId: string, e: Event): Service {
    match e
    case Lock(me, create) =>
      var (info, grant) := LockOn(v.Info(lockId), v.CallsOf(lockId), me, create);
      Service(if info.Some? then v.locks[lockId := info.value] else v.locks,
              v.calls[lockId := v.CallsOf(lockId) + 1], Enqueued(v.queued, lockId, grant))
    case Cancel(me) =>
      if lockId in v.locks then v.(locks := v.locks[lockId := CancelOn(v.locks[lockId], me)]) else v
    case Unlock(me) =>
      if lockId in v.locks then
        var (info, grant) := UnlockOn(v.locks[lockId], me);
        v.(locks := v.locks[lockId := info], queued := Enqueued(v.queued, lockId, grant))
      else v
  }

  function ServeAll(v: Service, es: seq<(string, Event)>): Service
    decreases |es|
  {
    if es == [] then v else ServeAll(Serve(v, es[0].0, es[0].1), es[1..])
  }

  /** What the callers of one lock do. */
  function OnLock(es: seq<(string, Event)>, lockId: string): seq<Event> {
    if es == [] then [] else (if es[0].0 == lockId then [es[0].1] else []) + OnLock(es[1..], lockId)
  }

  /** What the service stores for a lock is what the run of that lock has led to. */
  ghost predicate Follows(v: Service, lockId: string, s: State) {
    v.Info(lockId) == s.info && v.CallsOf(lockId) == |s.names| && GrantsOf(v.queued, lockId) == s.grants
  }

  lemma ServeFollows(v: Service, lockId: string, e: Event, l: string, s: State)
    requires Follows(v, l, s)
    ensures Follows(Serve(v, lockId, e), l, if l == lockId then Apply(s, e) else s)
  {
    var grant := match e
      case Lock(me, create) => LockOn(v.Info(lockId), v.CallsOf(lockId), me, create).1
      case Unlock(me) => if lockId in v.locks then UnlockOn(v.locks[lockId], me).1 else None
      case Cancel(_) => None;
    if grant.Some? {
      GrantsOfSnoc(v.queued, lockId, grant.value);
    }
  }

  lemma {:induction false} ServeAllFollows(v: Service, es: seq<(string, Event)>, l: string, s: State)
    requires Follows(v, l, s)
    ensures Follows(ServeAll(v, es), l, Run(s, OnLock(es, l)))
    decreases |es|
  {
    if es != [] {
      var (lockId, e) := es[0];
      ServeFollows(v, lockId, e, l, s);
      ServeAllFollows(Serve(v, lockId, e), es[1..], l, if l == lockId then Apply(s, e) else s);
      var rest := OnLock(es[1..], l);
      assert OnLock(es, l) == if l == lockId then [e] + rest else rest;
      assert l == lockId ==> ([e] + rest)[0] == e && ([e] + rest)[1..] == rest;
    }
  }

  lemma {:induction false} OnLockEnabled(es: seq<(string, Event)>, l: string)
    requires forall i :: 0 <= i < |es| ==> Enabled(es[i].1)
    ensures forall e :: e in OnLock(es, l) ==> Enabled(e)
  {
    if es != [] {
      forall i | 0 <= i < |es[1..]| ensures Enabled(es[1..][i].1) {
        assert es[1..][i] == es[i + 1];
      }
      OnLockEnabled(es[1..], l);
    }
  }

  /** In every run of the service, each of its locks is fair, whatever happens to the others. */
  lemma EveryLockIsFair(es: seq<(string, Event)>, l: string)
    requires forall i :: 0 <= i < |es| ==> Enabled(es[i].1)
    ensures Follows(ServeAll(Service(map[], map[], []), es), l, Run(Initial(), OnLock(es, l)))
    ensures Inv(Run(Initial(), OnLock(es, l)))
  {
    ServeAllFollows(Service(map[], map[], []), es, l, Initial());
    OnLockEnabled(es, l);
    LocksAreFair(OnLock(es, l));
  }

  lemma Associates(a: seq<Event>, b: seq<Event>, c: seq<Event>)
    ensures a + (b + c) == (a + b) + c
  {}

  lemma {:induction false} OnLockAppend(es: seq<(string, Event)>, fs: seq<(string, Event)>, l: string)
    ensures OnLock(es + fs, l) == OnLock(es, l) + OnLock(fs, l)
  {
    if es == [] {
      assert es + fs == fs;
    } else {
      OnLockAppend(es[1..], fs, l);
      var first := if es[0].0 == l then [es[0].1] else [];
      assert (es + fs)[0] == es[0] && (es + fs)[1..] == es[1..] + fs;
      assert OnLock(es + fs, l) == first + OnLock(es[1..] + fs, l);
      Associates(first, OnLock(es[1..], l), OnLock(fs, l));
    }
  }

  lemma {:induction false} RunAppend(s: State, es: seq<Event>, fs: seq<Event>)
    ensures Run(s, es + fs) == Run(Run(s, es), fs)
    decreases |es|
  {
    if es == [] {
      assert es + fs == fs;
    } else {
      RunAppend(Apply(s, es[0]), es[1..], fs);
      assert (es + fs)[1..] == es[1..] + fs;
    }
  }

  lemma {:induction false} OnLockSpares(es: seq<(string, Event)>, l: string, e: Event)
    requires forall i :: 0 <= i < |es| ==> es[i] != (l, e)
    ensures e !in OnLock(es, l)
  {
    if es != [] {
      forall i | 0 <= i < |es[1..]| ensures es[1..][i] != (l, e) {
        assert es[1..][i] == es[i + 1];
      }
      OnLockSpares(es[1..], l, e);
    }
  }

  /** The same for the service: whoever the service stores as the owner of a lock after `es` is still stored as its
      owner after any further calls `fs`, on any locks and by anybody, among which there is no unlock of it by its owner. */
  lemma {:induction false} LocksExclude(es: seq<(string, Event)>, fs: seq<(string, Event)>, l: string, owner: string)
    requires forall i :: 0 <= i < |es| ==> Enabled(es[i].1)
    requires forall i :: 0 <= i < |fs| ==> Enabled(fs[i].1) && fs[i] != (l, Unlock(owner))
    requires var v := ServeAll(Service(map[], map[], []), es); l in v.locks && v.locks[l].owner == owner != ""
    ensures var w := ServeAll(Service(map[], map[], []), es + fs); l in w.locks && w.locks[l].owner == owner
  {
    EveryLockIsFair(es, l);
    EveryLockIsFair(es + fs, l);
    OnLockAppend(es, fs, l);
    var mine, more := OnLock(es, l), OnLock(fs, l);
    RunAppend(Initial(), mine, more);
    OnLockEnabled(fs, l);
    OnLockSpares(fs, l, Unlock(owner));
    OwnerKeepsLock(Run(Initial(), mine), more);
  }

  class DistributedLockService {
    var locks: map<string, LockInfo>
    var calls: map<string, nat>
    var queued: seq<(string, Grant)>       // the grant callbacks put into the task queue

    ghost function Now(): Service
      reads this
    {
      Service(locks, calls, queued)
    }

    constructor ()
      ensures Now() == Service(map[], map[], [])
    {
      locks, calls, queued := map[], map[], [];
    }

    method Lock(lockId: string, me: string, create: bool) returns (err: Error)
      modifies this
      ensures Now() == Serve(old(Now()), lockId, Event.Lock(me, create))
      ensures var grant := LockOn(old(Now()).Info(lockId), old(Now()).CallsOf(lockId), me, create).1;
              err == if grant.Some? then grant.value.err else ERR_IO_PENDING
    {
      var ticket, owner, version := if lockId in calls then calls[lockId] else 0, "", 0;
      calls := calls[lockId := ticket + 1];
      if lockId !in locks {
        if !create {
          err := ERR_OBJECT_NOT_FOUND;
        } else {
          locks := locks[lockId := LockInfo(me, 1, [])];
          err, owner, version := ERR_OK, me, 1;
        }
      } else {
        var i := locks[lockId];
        if i.owner != "" {
          if i.owner == me {
            err, owner, version := ERR_RECURSIVE_LOCK, me, i.version;
          } else {
            err := ERR_IO_PENDING;
            locks := locks[lockId := i.(pending := i.pending + [Waiter(ticket, me)])];
          }
        } else {
          locks := locks[lockId := i.(owner := me, version := i.version + 1)];
          err, owner, version := ERR_OK, me, i.version + 1;
        }
      }
      if err != ERR_IO_PENDING {
        queued := queued + [(lockId, Grant(ticket, err, owner, version))];
      }
    }

    method CancelPendingLock(lockId: string, me: string) returns (err: Error, owner: string, version: nat)
      modifies `locks
      ensures Now() == Serve(old(Now()), lockId, Cancel(me))
      ensures lockId !in old(locks) ==> err == ERR_OBJECT_NOT_FOUND && owner == "" && version == 0
      ensures lockId in old(locks) ==>
                var i := old(locks[lockId]);
                owner == i.owner && version == i.version
                && (err == if CancelOn(i, me) == i then ERR_OBJECT_NOT_FOUND else ERR_OK)
    {
      if lockId !in locks { return ERR_OBJECT_NOT_FOUND, "", 0; }
      var i := locks[lockId];
      err, owner, version := ERR_OBJECT_NOT_FOUND, i.owner, i.version;
      var k := 0;
      while k < |i.pending|
        invariant 0 <= k <= |i.pending| && forall j :: 0 <= j < k ==> i.pending[j].owner != me
      {
        if i.pending[k].owner == me {
          assert k == FirstOf(i.pending, me);
          assert |CancelOn(i, me).pending| < |i.pending|;
          locks := locks[lockId := i.(pending := i.pending[..k] + i.pending[k + 1..])];
          return ERR_OK, owner, version;
        }
        k := k + 1;
      }
    }

    method Unlock(lockId: string, me: string) returns (err: Error)
      modifies `locks, `queued
      ensures Now() == Serve(old(Now()), lockId, Event.Unlock(me))
      ensures lockId !in old(locks) || old(locks[lockId]).owner != me ==> locks == old(locks) && queued == old(queued)
      ensures err == if lockId !in old(locks) then ERR_OBJECT_NOT_FOUND
                     else if old(locks[lockId]).owner == me then ERR_OK else ERR_HOLD_BY_OTHERS
    {
      if lockId !in locks { return ERR_OBJECT_NOT_FOUND; }
      var i := locks[lockId];
      if i.owner != me { return ERR_HOLD_BY_OTHERS; }
      err := ERR_OK;
      if |i.pending| > 0 {
        var next, nextVersion := i.pending[0], i.version;
        locks := locks[lockId := LockInfo(next.owner, i.version + 1, i.pending[1..])];
        if next.owner != "" {
          queued := queued + [(lockId, Grant(next.ticket, ERR_OK, next.owner, nextVersion))];
        }
      } else {
        locks := locks[lockId := LockInfo("", i.version + 1, [])];
      }
    }

    method QueryLock(lockId: string) returns (err: Error, owner: string, version: nat)
      ensures if lockId in locks then err == ERR_OK && owner == locks[lockId].owner && version == locks[lockId].version
              else err == ERR_OBJECT_NOT_FOUND && owner == "" && version == 0
    {
      if lockId !in locks { return ERR_OBJECT_NOT_FOUND, "", 0; }
      return ERR_OK, locks[lockId].owner, locks[lockId].version;
    }
  }
}
