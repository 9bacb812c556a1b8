/** One master, any number of workers, a common clock and a network that may lose, delay, reorder and
    repeat messages. The claim is the picture in failure_detector.cpp:214-224: a worker gives up before the
    master declares it dead. */
module LeaseProtocol {
  import opened FailureDetector

  /** `sent` and `acks` hold every beacon and ack that may still arrive; nothing is ever taken out. */
  datatype Worker = Worker(record: MasterRecord, lastCheck: nat, sent: set<nat>, acks: set<BeaconAck>)

  datatype State = State(now: nat, workers: map<nat, Worker>, master: map<nat, WorkerRecord>)

  datatype Event =
    | Tick(time: nat)
    | Join(w: nat)                     // a worker starts and registers the master
    | Register(w: nat)                 // the master registers the worker as connected
    | Check(w: nat)                    // the worker checks its master record
    | Send(w: nat)
    | Receive(w: nat, time: nat)       // the master gets the beacon sent at `time`
    | Ack(w: nat, ack: BeaconAck)      // the worker gets an ack before the beacon times out
    | Timeout(w: nat, time: nat)       // the beacon sent at `time` times out
    | MasterCheck                      // the master checks all worker records

  const MASTER := 1

  /** The premises: workers check at most checkInterval apart, and an ack later than the beacon timeout is
      reported as a timeout. */
  predicate Enabled(tm: Timing, s: State, e: Event) {
    match e
    case Tick(time) => time >= s.now && forall w :: w in s.workers ==> time <= s.workers[w].lastCheck + tm.checkInterval
    case Join(w) => w !in s.workers
    case Register(w) => true
    case Check(w) => w in s.workers
    case Send(w) => w in s.workers
    case Receive(w, time) => w in s.workers && time in s.workers[w].sent
    case Ack(w, ack) => w in s.workers && ack in s.workers[w].acks && s.now <= ack.time + tm.beaconTimeout
    case Timeout(w, time) => w in s.workers && time in s.workers[w].sent
    case MasterCheck => true
  }

  function Deliver(s: State, w: nat, time: nat, allow: set<nat>, useAllowList: bool): State
    requires w in s.workers
  {
    var known := w in s.master;
    var r := Ping(known, if known then s.master[w] else WorkerRecord(w, s.now, true),
                  !useAllowList || w in allow, w, s.now);
    var ack := BeaconAck(time, MASTER, MASTER, true, r.Recorded?);
    s.(master := if r.Recorded? then s.master[w := r.record] else s.master,
       workers := s.workers[w := s.workers[w].(acks := s.workers[w].acks + {ack})])
  }

  /** Which workers the master accepts at first contact. */
  datatype Admission = Admission(useAllowList: bool, allow: set<nat>)

  function Apply(tm: Timing, adm: Admission, s: State, e: Event): State
    requires Enabled(tm, s, e)
  {
    match e
    case Tick(time) => s.(now := time)
    case Join(w) => s.(workers := s.workers[w := Worker(MasterRecord(MASTER, s.now, false, false), s.now, {}, {})])
    case Register(w) => s.(master := s.master[w := WorkerRecord(w, s.now, true)])
    case Check(w) =>
      var x := s.workers[w];
      s.(workers := s.workers[w := x.(record := CheckMaster(tm, x.record, s.now), lastCheck := s.now)])
    case Send(w) => s.(workers := s.workers[w := s.workers[w].(sent := s.workers[w].sent + {s.now})])
    case Receive(w, time) => Deliver(s, w, time, adm.allow, adm.useAllowList)
    case Ack(w, ack) =>
      var x := s.workers[w];
      s.(workers := s.workers[w := x.(record := EndPing(tm, x.record, ERR_OK, ack, s.now).0)])
    case Timeout(w, time) =>
      var x := s.workers[w];
      var ack := BeaconAck(time, MASTER, 0, false, true);
      s.(workers := s.workers[w := x.(record := EndPing(tm, x.record, ERR_TIMEOUT, ack, s.now).0)])
    case MasterCheck => s.(master := map w | w in s.master :: CheckWorker(tm, s.master[w], s.now))
  }

  /** `t` is reached from `s` by the enabled events `es`. */
  ghost predicate Runs(tm: Timing, adm: Admission, s: State, es: seq<Event>, t: State)
    decreases |es|
  {
    if es == [] then s == t
    else Enabled(tm, s, es[0]) && Runs(tm, adm, Apply(tm, adm, s, es[0]), es[1..], t)
  }

  ghost predicate Initial(s: State) {
    s.workers == map[] && s.master == map[]
  }

  /** A worker that believes in its master is believed alive by the master. */
  ghost predicate Safe(s: State) {
    forall w :: w in s.workers && s.workers[w].record.isAlive ==> w in s.master && s.master[w].isAlive
  }

  // ---- safety -----------------------------------------------------------------------------------

  function Min(a: nat, b: nat): nat {
    if a < b then a else b
  }

  /** How long after its last acknowledged beacon a worker can still be alive. */
  function Reach(tm: Timing): nat {
    var revived := Min(tm.beaconTimeout, tm.lease) + tm.checkInterval;
    if revived < tm.lease then tm.lease else revived
  }

  /** The exact condition on the constants. */
  predicate TimingSound(tm: Timing) {
    tm.lease <= tm.grace && Min(tm.beaconTimeout, tm.lease) + tm.checkInterval <= tm.grace
  }

  /** The invariant of one worker `x` and the master's records. */
  ghost predicate WorkerInv(tm: Timing, now: nat, w: nat, x: Worker, master: map<nat, WorkerRecord>) {
    && x.lastCheck <= now <= x.lastCheck + tm.checkInterval && x.record.lastSend <= now
    && (forall time :: time in x.sent ==> time <= now)
    && (forall a :: a in x.acks && a.allowed ==> w in master && a.time <= master[w].lastRecv && a.isMaster)
    && (x.record.isAlive ==>
          && x.lastCheck + tm.checkInterval <= x.record.lastSend + Reach(tm)
          && w in master && x.record.lastSend <= master[w].lastRecv)
  }

  ghost predicate MasterInv(tm: Timing, now: nat, r: WorkerRecord) {
    r.lastRecv <= now && (!r.isAlive ==> now > r.lastRecv + tm.grace)
  }

  ghost predicate Inv(tm: Timing, s: State) {
    && (forall w :: w in s.workers ==> WorkerInv(tm, s.now, w, s.workers[w], s.master))
    && (forall w :: w in s.master ==> MasterInv(tm, s.now, s.master[w]))
  }

  lemma InvIsSafe(tm: Timing, s: State)
    requires TimingSound(tm) && Inv(tm, s)
    ensures Safe(s)
  {}

  lemma StepKeepsMaster(tm: Timing, adm: Admission, s: State, e: Event, w: nat)
    requires Inv(tm, s) && Enabled(tm, s, e) && w in Apply(tm, adm, s, e).master
    ensures var t := Apply(tm, adm, s, e); MasterInv(tm, t.now, t.master[w])
  {}

  lemma StepKeepsWorker(tm: Timing, adm: Admission, s: State, e: Event, w: nat)
    requires Inv(tm, s) && Enabled(tm, s, e) && w in Apply(tm, adm, s, e).workers
    ensures var t := Apply(tm, adm, s, e); WorkerInv(tm, t.now, w, t.workers[w], t.master)
  {
    assert w in s.workers ==> WorkerInv(tm, s.now, w, s.workers[w], s.master);
    assert w in s.master ==> MasterInv(tm, s.now, s.master[w]);
  }

  lemma StepKeepsInv(tm: Timing, adm: Admission, s: State, e: Event)
    requires Inv(tm, s) && Enabled(tm, s, e)
    ensures Inv(tm, Apply(tm, adm, s, e))
  {
    var t := Apply(tm, adm, s, e);
    forall w | w in t.master ensures MasterInv(tm, t.now, t.master[w]) {
      StepKeepsMaster(tm, adm, s, e, w);
    }
    forall w | w in t.workers ensures WorkerInv(tm, t.now, w, t.workers[w], t.master) {
      StepKeepsWorker(tm, adm, s, e, w);
    }
  }

  lemma {:induction false} RunKeepsInv(tm: Timing, adm: Admission, s: State, es: seq<Event>, t: State)
    requires Inv(tm, s) && Runs(tm, adm, s, es, t)
    ensures Inv(tm, t)
    decreases |es|
  {
    if es != [] {
      StepKeepsInv(tm, adm, s, es[0]);
      RunKeepsInv(tm, adm, Apply(tm, adm, s, es[0]), es[1..], t);
    }
  }

  /** In every run with sound timing constants, a worker that the master marks dead has already given up. */
  lemma WorkerGivesUpFirst(tm: Timing, adm: Admission, s: State, es: seq<Event>, t: State, w: nat)
    requires TimingSound(tm) && Initial(s) && Runs(tm, adm, s, es, t)
    requires w in t.master && WorkerExpires(tm, t.master[w], t.now)
    ensures Safe(t) && (w in t.workers ==> !t.workers[w].record.isAlive)
  {
    RunKeepsInv(tm, adm, s, es, t);
    InvIsSafe(tm, t);
    if w in t.workers {
      assert WorkerInv(tm, t.now, w, t.workers[w], t.master);
    }
  }

  // ---- the allow list ------------------------------------------------------------------------------

  /** The master does not know the worker, and the worker has no ack that allows it; whether it has been told so. */
  ghost predicate Outside(s: State, w: nat, told: bool) {
    && w !in s.master && (told ==> w in s.workers)
    && (w in s.workers ==>
          && !s.workers[w].record.isAlive && s.workers[w].record.rejected == told
          && forall a :: a in s.workers[w].acks ==> !a.allowed)
  }

  lemma StepKeepsOutside(tm: Timing, adm: Admission, s: State, e: Event, w: nat, told: bool)
    requires Outside(s, w, told) && Enabled(tm, s, e) && e != Register(w)
    requires adm.useAllowList && w !in adm.allow
    ensures Outside(Apply(tm, adm, s, e), w, told || (e.Ack? && e.w == w))
  {}

  /** Some ack has reached the worker. */
  ghost predicate Told(es: seq<Event>, w: nat) {
    exists i :: 0 <= i < |es| && es[i].Ack? && es[i].w == w
  }

  lemma ToldFirstOrLater(es: seq<Event>, w: nat)
    requires es != []
    ensures Told(es, w) <==> (es[0].Ack? && es[0].w == w) || Told(es[1..], w)
  {
    assert forall i :: 1 <= i < |es| ==> es[1..][i - 1] == es[i];
  }

  lemma {:induction false} RunKeepsOutside(tm: Timing, adm: Admission, s: State, es: seq<Event>, t: State, w: nat, told: bool)
    requires Outside(s, w, told) && Runs(tm, adm, s, es, t) && forall i :: 0 <= i < |es| ==> es[i] != Register(w)
    requires adm.useAllowList && w !in adm.allow
    ensures Outside(t, w, told || Told(es, w))
    decreases |es|
  {
    if es != [] {
      StepKeepsOutside(tm, adm, s, es[0], w, told);
      RunKeepsOutside(tm, adm, Apply(tm, adm, s, es[0]), es[1..], t, w, told || (es[0].Ack? && es[0].w == w));
      ToldFirstOrLater(es, w);
    }
  }

  /** In every run, for any constants: a worker outside the allow list does not enter the master's records by its beacons,
      never comes alive, and knows that it is rejected from the first ack that reaches it. */
  lemma OutsiderStaysOut(tm: Timing, adm: Admission, s: State, es: seq<Event>, t: State, w: nat)
    requires Initial(s) && Runs(tm, adm, s, es, t) && forall i :: 0 <= i < |es| ==> es[i] != Register(w)
    requires adm.useAllowList && w !in adm.allow
    ensures w !in t.master
    ensures w in t.workers ==> !t.workers[w].record.isAlive && (t.workers[w].record.rejected <==> Told(es, w))
  {
    RunKeepsOutside(tm, adm, s, es, t, w, false);
  }

  /** Any other worker's beacon does enter it, or brings its record up to date, and is acknowledged. */
  lemma BeaconIsRecorded(tm: Timing, adm: Admission, s: State, w: nat, time: nat)
    requires Inv(tm, s) && Enabled(tm, s, Receive(w, time)) && (!adm.useAllowList || w in adm.allow || w in s.master)
    ensures var t := Apply(tm, adm, s, Receive(w, time));
            && w in t.master && t.master[w].isAlive && t.master[w].lastRecv == s.now
            && BeaconAck(time, MASTER, MASTER, true, true) in t.workers[w].acks
  {
    assert w in s.master ==> MasterInv(tm, s.now, s.master[w]);
  }

  // ---- the condition is exact --------------------------------------------------------------------

  lemma {:induction false} RunsConcat(tm: Timing, adm: Admission, s: State, es: seq<Event>, t: State,
                                      fs: seq<Event>, u: State)
    requires Runs(tm, adm, s, es, t) && Runs(tm, adm, t, fs, u)
    ensures Runs(tm, adm, s, es + fs, u)
    decreases |es|
  {
    if es == [] {
      assert es + fs == fs;
    } else {
      assert (es + fs)[1..] == es[1..] + fs;
      RunsConcat(tm, adm, Apply(tm, adm, s, es[0]), es[1..], t, fs, u);
    }
  }

  lemma RunsOne(tm: Timing, adm: Admission, s: State, e: Event)
    requires Enabled(tm, s, e)
    ensures Runs(tm, adm, s, [e], Apply(tm, adm, s, e))
  {}

  lemma RunsTwo(tm: Timing, adm: Admission, s: State, e: Event, f: Event)
    requires Enabled(tm, s, e) && Enabled(tm, Apply(tm, adm, s, e), f)
    ensures Runs(tm, adm, s, [e, f], Apply(tm, adm, Apply(tm, adm, s, e), f))
  {}

  const ANYONE := Admission(false, {})
  const FIRST_ACK := BeaconAck(1, MASTER, MASTER, true, true)

  /** Worker 2 sent its only beacon at time 1, the master got it at once, and the worker has just checked. */
  function Waiting(now: nat, lastSend: nat, alive: bool): State {
    State(now, map[2 := Worker(MasterRecord(MASTER, lastSend, alive, false), now, {1}, {FIRST_ACK})],
          map[2 := WorkerRecord(2, 1, true)])
  }

  lemma ReachWaiting(tm: Timing) returns (s: State, es: seq<Event>)
    requires tm.checkInterval >= 1
    ensures Initial(s) && Runs(tm, ANYONE, s, es, Waiting(1, 0, false))
  {
    s := State(0, map[], map[]);
    var s1 := Apply(tm, ANYONE, s, Join(2));
    var s2 := Apply(tm, ANYONE, s1, Tick(1));
    var s3 := Apply(tm, ANYONE, s2, Check(2));
    var s4 := Apply(tm, ANYONE, s3, Send(2));
    var s5 := Apply(tm, ANYONE, s4, Receive(2, 1));
    assert s5 == Waiting(1, 0, false) by {
      assert s5.workers[2].sent == {1} && s5.workers[2].acks == {FIRST_ACK};
      assert s5.workers == Waiting(1, 0, false).workers;
      assert s5.master == Waiting(1, 0, false).master;
    }
    RunsTwo(tm, ANYONE, s, Join(2), Tick(1));
    RunsTwo(tm, ANYONE, s2, Check(2), Send(2));
    RunsOne(tm, ANYONE, s4, Receive(2, 1));
    RunsConcat(tm, ANYONE, s, [Join(2), Tick(1)], s2, [Check(2), Send(2)], s4);
    es := [Join(2), Tick(1)] + [Check(2), Send(2)];
    RunsConcat(tm, ANYONE, s, es, s4, [Receive(2, 1)], s5);
    es := es + [Receive(2, 1)];
  }

  /** The worker checks on time and keeps its state while its lease, if it has one, lasts. */
  lemma {:induction false} KeepChecking(tm: Timing, lastSend: nat, alive: bool, a: nat, b: nat) returns (es: seq<Event>)
    requires a <= b && tm.checkInterval >= 1
    requires alive ==> b + tm.checkInterval <= lastSend + tm.lease
    ensures Runs(tm, ANYONE, Waiting(a, lastSend, alive), es, Waiting(b, lastSend, alive))
    decreases b - a
  {
    if a == b {
      es := [];
    } else {
      var c := Min(a + tm.checkInterval, b);
      var s := Waiting(a, lastSend, alive);
      var t := Apply(tm, ANYONE, Apply(tm, ANYONE, s, Tick(c)), Check(2));
      assert t == Waiting(c, lastSend, alive) by {
        assert t.workers == Waiting(c, lastSend, alive).workers;
      }
      RunsTwo(tm, ANYONE, s, Tick(c), Check(2));
      var fs := KeepChecking(tm, lastSend, alive, c, b);
      RunsConcat(tm, ANYONE, s, [Tick(c), Check(2)], t, fs, Waiting(b, lastSend, alive));
      es := [Tick(c), Check(2)] + fs;
    }
  }

  /** An ack that arrives within both the timeout and the lease revives the worker. */
  lemma Revive(tm: Timing, d: nat)
    requires 1 <= d <= tm.beaconTimeout && d <= tm.lease
    ensures Runs(tm, ANYONE, Waiting(1 + d, 0, false), [Ack(2, FIRST_ACK)], Waiting(1 + d, 1, true))
  {}

  /** Right before its next check the worker is still alive, but the grace period is over. */
  lemma DeclaredDead(tm: Timing, now: nat) returns (t: State)
    requires now + tm.checkInterval > 1 + tm.grace
    ensures Runs(tm, ANYONE, Waiting(now, 1, true), [Tick(now + tm.checkInterval), MasterCheck], t) && !Safe(t)
  {
    var s := Waiting(now, 1, true);
    RunsTwo(tm, ANYONE, s, Tick(now + tm.checkInterval), MasterCheck);
    t := Apply(tm, ANYONE, Apply(tm, ANYONE, s, Tick(now + tm.checkInterval)), MasterCheck);
    assert 2 in t.workers && t.workers[2].record.isAlive && !t.master[2].isAlive;
  }

  /** Without sound constants some run ends with the worker alive and the master convinced of its death. */
  lemma UnsoundTimingIsUnsafe(tm: Timing) returns (s: State, es: seq<Event>, t: State)
    requires tm.checkInterval >= 1 && tm.beaconTimeout >= 1 && tm.lease >= 1 && !TimingSound(tm)
    ensures Initial(s) && Runs(tm, ANYONE, s, es, t) && !Safe(t)
  {
    var d := Min(tm.beaconTimeout, tm.lease);
    var mid := if d + tm.checkInterval > tm.grace then 1 + d else 1 + tm.lease - tm.checkInterval;
    s, es := ReachWaiting(tm);
    var fs := KeepChecking(tm, 0, false, 1, 1 + d);
    RunsConcat(tm, ANYONE, s, es, Waiting(1, 0, false), fs, Waiting(1 + d, 0, false));
    es := es + fs;
    Revive(tm, d);
    RunsConcat(tm, ANYONE, s, es, Waiting(1 + d, 0, false), [Ack(2, FIRST_ACK)], Waiting(1 + d, 1, true));
    es := es + [Ack(2, FIRST_ACK)];
    if mid > 1 + d {
      fs := KeepChecking(tm, 1, true, 1 + d, mid);
      RunsConcat(tm, ANYONE, s, es, Waiting(1 + d, 1, true), fs, Waiting(mid, 1, true));
      es := es + fs;
    }
    t := DeclaredDead(tm, mid);
    fs := [Tick(mid + tm.checkInterval), MasterCheck];
    RunsConcat(tm, ANYONE, s, es, Waiting(mid, 1, true), fs, t);
    es := es + fs;
  }

  ghost predicate AlwaysSafe(tm: Timing) {
    forall adm, s, es, t :: ReachableBy(tm, adm, s, es, t) ==> Safe(t)
  }

  ghost predicate ReachableBy(tm: Timing, adm: Admission, s: State, es: seq<Event>, t: State) {
    Initial(s) && Runs(tm, adm, s, es, t)
  }

  /** With one of these constants at zero no worker ever comes alive. */
  predicate Idle(tm: Timing) {
    tm.checkInterval == 0 || tm.beaconTimeout == 0 || tm.lease == 0
  }

  ghost predicate NeverAlive(tm: Timing, s: State) {
    forall w :: w in s.workers ==>
      !s.workers[w].record.isAlive && (tm.checkInterval == 0 ==> s.workers[w].record.lastSend == s.now)
  }

  lemma IdleStep(tm: Timing, adm: Admission, s: State, e: Event, w: nat)
    requires Idle(tm) && Inv(tm, s) && NeverAlive(tm, s) && Enabled(tm, s, e) && w in Apply(tm, adm, s, e).workers
    ensures var t := Apply(tm, adm, s, e);
            && !t.workers[w].record.isAlive
            && (tm.checkInterval == 0 ==> t.workers[w].record.lastSend == t.now)
  {}

  lemma {:induction false} IdleStaysDead(tm: Timing, adm: Admission, s: State, es: seq<Event>, t: State)
    requires Idle(tm) && Inv(tm, s) && NeverAlive(tm, s) && Runs(tm, adm, s, es, t)
    ensures NeverAlive(tm, t)
    decreases |es|
  {
    if es != [] {
      StepKeepsInv(tm, adm, s, es[0]);
      forall w | w in Apply(tm, adm, s, es[0]).workers
        ensures && !Apply(tm, adm, s, es[0]).workers[w].record.isAlive
                && (tm.checkInterval == 0 ==>
                      Apply(tm, adm, s, es[0]).workers[w].record.lastSend == Apply(tm, adm, s, es[0]).now)
      {
        IdleStep(tm, adm, s, es[0], w);
      }
      IdleStaysDead(tm, adm, Apply(tm, adm, s, es[0]), es[1..], t);
    }
  }

  /** The detector is safe in every run exactly when its constants are sound or idle. */
  lemma SafeIffTimingSound(tm: Timing)
    ensures AlwaysSafe(tm) <==> TimingSound(tm) || Idle(tm)
  {
    if TimingSound(tm) || Idle(tm) {
      forall adm, s, es, t | ReachableBy(tm, adm, s, es, t) ensures Safe(t) {
        if TimingSound(tm) {
          RunKeepsInv(tm, adm, s, es, t);
          InvIsSafe(tm, t);
        } else {
          IdleStaysDead(tm, adm, s, es, t);
        }
      }
    } else {
      var s, es, t := UnsoundTimingIsUnsafe(tm);
      assert ReachableBy(tm, ANYONE, s, es, t) && !Safe(t);
    }
  }

  /** The shipped defaults of 2, 3, 9 and 10 seconds are sound (src/common/replication_common.cpp:88-91). */
  lemma DefaultsAreSound()
    ensures TimingSound(Start(2, 3, 9, 10))
  {}
}
