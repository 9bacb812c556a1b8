/** The resolver's requests, pending queues and config queries (partition_resolver_simple.cpp), as steps that
    each hold one lock. Any interleaving of the steps is a run. */
module Resolver {
  import opened Options
  import opened ConfigCache

  datatype Code = Ok | Timeout | Final | Retry
  // Final: handler not found, app not existing or operation disabled. Retry: any other error.

  datatype Answer = Answer(err: Code, addr: nat, index: Option<nat>)

  /** Who holds the request: a thread at some point of `call`, a queue, a thread going through a drained
      queue, or nobody once the request has been ended. */
  datatype Place = AtCall(fromMetaAck: bool) | AtArm | AtPush | Queued | InHand | Ended

  /** Spent: cancelled, or its task is over. */
  datatype Timer = NoTimer | Armed | Firing | Spent

  datatype Request = Request(hash: nat, index: Option<nat>, place: Place, timer: Timer,
                             completed: bool, answers: seq<Answer>)

  /** Config queries are `sent`, then `answered` (the cache has been updated), then drain their queue. The key
      None stands for the query for all partitions. */
  datatype State = State(
    count: Option<nat>, stateful: bool, cache: Cache,
    reqs: seq<Request>, pending: map<nat, seq<nat>>, unknown: seq<nat>,
    sent: multiset<Option<nat>>, answered: multiset<Option<nat>>)

  /** An error, or the partition count and configurations. */
  datatype Response = Failure | Success(count: nat, stateful: bool, configs: seq<(nat, Configuration)>)

  datatype Event =
    | Resolve(hash: nat, pick: nat)
    | Call(id: nat, late: bool, pick: nat)
    | ArmTimer(id: nat)
    | Push(id: nat)
    | TimerFires(id: nat)
    | OnTimeout(id: nat)
    | Reply(key: Option<nat>, resp: Response)
    | Drain(key: Option<nat>)
    | Handle(id: nat, err: Code, pick: nat)
    | AccessFailure(index: Option<nat>, error: AccessError)

  // ---- steps on one request --------------------------------------------------------------------------

  /** get_address; `pick` is the random number used for stateless apps, and 0 the invalid address. */
  function Address(s: State, index: Option<nat>, pick: nat): nat {
    if index.None? || index.value !in s.cache then 0
    else
      var c := s.cache[index.value];
      if s.stateful then c.primary
      else if c.lastDrops == [] then 0 else c.lastDrops[pick % |c.lastDrops|]
  }

  function EndRequest(r: Request, err: Code, addr: nat, byTimer: bool): Request {
    if r.completed then r
    else r.(answers := r.answers + [Answer(err, addr, r.index)], completed := true,
            timer := if !byTimer && r.timer == Armed then Spent else r.timer)
  }

  function EndAndDrop(r: Request, err: Code, addr: nat): Request {
    EndRequest(r, err, addr, false).(place := Ended)
  }

  function CallStep(r: Request, addr: nat, late: bool): Request
    requires r.place.AtCall?
  {
    if addr != 0 then EndAndDrop(r, Ok, addr)
    else if late then EndAndDrop(r, Timeout, 0)
    else if r.place.fromMetaAck then r.(place := AtCall(false))
    else r.(place := AtArm)
  }

  function HandleStep(r: Request, err: Code, addr: nat): Request {
    if err == Ok && addr != 0 then EndAndDrop(r, Ok, addr)
    else if err == Final then EndAndDrop(r, err, 0)
    else r.(place := AtCall(true))
  }

  // ---- the queues ------------------------------------------------------------------------------------

  function QueueOf(s: State, key: Option<nat>): seq<nat> {
    match key
    case None => s.unknown
    case Some(k) => if k in s.pending then s.pending[k] else []
  }

  /** A request joins its queue; the first one sends a config query. */
  function Pushed(s: State, id: nat): State
    requires id < |s.reqs|
  {
    var r := s.reqs[id];
    var t := s.(reqs := s.reqs[id := r.(place := Queued)]);
    match r.index
    case Some(k) =>
      t.(pending := s.pending[k := QueueOf(s, r.index) + [id]],
         sent := if k in s.pending then s.sent else s.sent + multiset{r.index})
    case None =>
      t.(unknown := s.unknown + [id],
         sent := if |s.unknown + [id]| == 1 then s.sent + multiset{r.index} else s.sent)
  }

  /** What a reply for `key` takes out: its queue, or all queues. */
  predicate Taken(s: State, key: Option<nat>, id: nat) {
    if key.Some? then id in QueueOf(s, key) else id in s.unknown || exists k :: k in s.pending && id in s.pending[k]
  }

  function Index(count: nat, hash: nat): nat
    requires count > 0
  {
    hash % count
  }

  function TakenOut(s: State, key: Option<nat>, id: nat): Request
    requires id < |s.reqs| && s.count != Some(0)
  {
    var r := s.reqs[id];
    if !Taken(s, key, id) then r
    else if key == None && id in s.unknown && s.count.Some? then
      r.(place := InHand, index := Some(Index(s.count.value, r.hash)))
    else r.(place := InHand)
  }

  function Drained(s: State, key: Option<nat>): State
    requires s.count != Some(0)
  {
    s.(reqs := seq(|s.reqs|, id requires 0 <= id < |s.reqs| => TakenOut(s, key, id)),
       pending := if key.Some? then s.pending - {key.value} else map[],
       unknown := if key.Some? then s.unknown else [],
       answered := s.answered - multiset{key})
  }

  function LearnedAll(cache: Cache, stateful: bool, configs: seq<(nat, Configuration)>): Cache {
    if configs == [] then cache
    else
      var n := |configs| - 1;
      Learned(LearnedAll(cache, stateful, configs[..n]), stateful, configs[n].0, configs[n].1)
  }

  function Replied(s: State, key: Option<nat>, resp: Response): State {
    var t := s.(sent := s.sent - multiset{key}, answered := s.answered + multiset{key});
    match resp
    case Failure => t
    case Success(count, stateful, configs) =>
      t.(count := Some(count), stateful := stateful, cache := LearnedAll(s.cache, stateful, configs))
  }

  // ---- runs ------------------------------------------------------------------------------------------

  /** The source aborts when an app's partition count changes. */
  ghost predicate Enabled(s: State, e: Event) {
    match e
    case Resolve(_, _) => s.count != Some(0)
    case Call(id, _, _) => id < |s.reqs| && s.reqs[id].place.AtCall?
    case ArmTimer(id) => id < |s.reqs| && s.reqs[id].place == AtArm
    case Push(id) => id < |s.reqs| && s.reqs[id].place == AtPush
    case TimerFires(id) => id < |s.reqs| && s.reqs[id].timer == Armed
    case OnTimeout(id) => id < |s.reqs| && s.reqs[id].timer == Firing
    case Reply(key, resp) =>
      key in s.sent && (resp.Success? ==> resp.count > 0 && (s.count.Some? ==> resp.count == s.count.value))
    case Drain(key) => key in s.answered && s.count != Some(0)
    case Handle(id, _, _) => id < |s.reqs| && s.reqs[id].place == InHand
    case AccessFailure(_, _) => true
  }

  /** A new request; one that the cache can answer is answered at once. */
  function NewRequest(s: State, hash: nat, pick: nat): Request
    requires s.count != Some(0)
  {
    var index := if s.count.Some? then Some(Index(s.count.value, hash)) else None;
    var r := Request(hash, index, AtCall(false), NoTimer, false, []);
    if Address(s, index, pick) != 0 then EndAndDrop(r, Ok, Address(s, index, pick)) else r
  }

  ghost function Apply(s: State, e: Event): State
    requires Enabled(s, e)
  {
    match e
    case Resolve(hash, pick) => s.(reqs := s.reqs + [NewRequest(s, hash, pick)])
    case Call(id, late, pick) =>
      s.(reqs := s.reqs[id := CallStep(s.reqs[id], Address(s, s.reqs[id].index, pick), late)])
    case ArmTimer(id) =>
      s.(reqs := s.reqs[id := s.reqs[id].(place := AtPush,
                                          timer := if s.reqs[id].timer == NoTimer then Armed else s.reqs[id].timer)])
    case Push(id) => Pushed(s, id)
    case TimerFires(id) => s.(reqs := s.reqs[id := s.reqs[id].(timer := Firing)])
    case OnTimeout(id) => s.(reqs := s.reqs[id := EndRequest(s.reqs[id], Timeout, 0, true).(timer := Spent)])
    case Reply(key, resp) => Replied(s, key, resp)
    case Drain(key) => Drained(s, key)
    case Handle(id, err, pick) =>
      s.(reqs := s.reqs[id := HandleStep(s.reqs[id], err, Address(s, s.reqs[id].index, pick))])
    case AccessFailure(index, err) => s.(cache := Changed(s.cache, s.stateful, Failed(index, err)))
  }

  ghost predicate Runs(s: State, es: seq<Event>, t: State)
    decreases |es|
  {
    if es == [] then s == t else Enabled(s, es[0]) && Runs(Apply(s, es[0]), es[1..], t)
  }

  function Initial(): State {
    State(None, true, map[], [], map[], [], multiset{}, multiset{})
  }

  // ---- the invariant ---------------------------------------------------------------------------------

  ghost predicate Outstanding(s: State, key: Option<nat>) {
    key in s.sent || key in s.answered
  }

  /** A timer that will still end the request. */
  predicate Live(t: Timer) {
    t == Armed || t == Firing
  }

  ghost predicate RequestInv(count: Option<nat>, r: Request) {
    && |r.answers| == (if r.completed then 1 else 0)
    && (r.place == Ended ==> r.completed)
    && (!r.completed && (r.place == AtPush || r.place == Queued) ==> Live(r.timer))
    && (!r.completed && r.timer != NoTimer ==> Live(r.timer))
    && (r.index.Some? ==> count.Some? && count.value > 0 && r.index.value == Index(count.value, r.hash))
    && (r.completed && r.answers[0].err == Ok ==>
          r.place == Ended && r.answers[0].addr != 0 && r.answers[0].index == r.index && r.index.Some?)
  }

  /** Queue `key` holds exactly the queued requests with that index, and a query is on its way. */
  ghost predicate QueueInv(s: State, key: Option<nat>) {
    && (forall id :: id in QueueOf(s, key) ==> id < |s.reqs| && s.reqs[id].place == Queued && s.reqs[id].index == key)
    && (QueueOf(s, key) != [] ==> Outstanding(s, key))
  }

  ghost predicate Inv(s: State) {
    && s.count != Some(0)
    && (forall id :: 0 <= id < |s.reqs| ==> RequestInv(s.count, s.reqs[id]))
    && (forall key: Option<nat> :: QueueInv(s, key))
    && (forall id :: 0 <= id < |s.reqs| && s.reqs[id].place == Queued ==> id in QueueOf(s, s.reqs[id].index))
    && (forall k :: k in s.pending ==> s.pending[k] != [])
  }

  // ---- every step keeps it ---------------------------------------------------------------------------

  /** A step on one request that neither queues it nor takes it from a queue. */
  lemma LocalKeepsInv(s: State, id: nat, r: Request)
    requires Inv(s) && id < |s.reqs| && RequestInv(s.count, r)
    requires r.index == s.reqs[id].index && (r.place == Queued <==> s.reqs[id].place == Queued)
    ensures Inv(s.(reqs := s.reqs[id := r]))
  {
    var t := s.(reqs := s.reqs[id := r]);
    forall key: Option<nat> ensures QueueInv(t, key) {
      assert QueueInv(s, key);
      assert QueueOf(t, key) == QueueOf(s, key);
    }
    forall i | 0 <= i < |t.reqs| && t.reqs[i].place == Queued ensures i in QueueOf(t, t.reqs[i].index) {
      assert QueueOf(t, t.reqs[i].index) == QueueOf(s, s.reqs[i].index);
    }
  }

  lemma ResolveKeepsInv(s: State, hash: nat, pick: nat)
    requires Inv(s)
    ensures Inv(Apply(s, Resolve(hash, pick)))
  {
    var t := Apply(s, Resolve(hash, pick));
    forall key: Option<nat> ensures QueueInv(t, key) {
      assert QueueInv(s, key);
      assert QueueOf(t, key) == QueueOf(s, key);
    }
    forall i | 0 <= i < |t.reqs| && t.reqs[i].place == Queued ensures i in QueueOf(t, t.reqs[i].index) {
      assert QueueOf(t, t.reqs[i].index) == QueueOf(s, s.reqs[i].index);
    }
  }

  lemma PushExtendsQueue(s: State, id: nat, key: Option<nat>)
    requires Inv(s) && Enabled(s, Push(id))
    ensures QueueOf(Pushed(s, id), key) == QueueOf(s, key) + if key == s.reqs[id].index then [id] else []
  {}

  lemma PushKeepsMembers(s: State, id: nat, key: Option<nat>)
    requires Inv(s) && Enabled(s, Push(id))
    ensures var t := Pushed(s, id);
            forall i :: i in QueueOf(t, key) ==> i < |t.reqs| && t.reqs[i].place == Queued && t.reqs[i].index == key
  {
    assert QueueInv(s, key);
    PushExtendsQueue(s, id, key);
    assert Pushed(s, id).reqs == s.reqs[id := s.reqs[id].(place := Queued)];
  }

  lemma PushKeepsQueue(s: State, id: nat, key: Option<nat>)
    requires Inv(s) && Enabled(s, Push(id))
    ensures QueueInv(Pushed(s, id), key)
  {
    assert QueueInv(s, key);
    PushExtendsQueue(s, id, key);
    PushKeepsMembers(s, id, key);
  }

  lemma PushKeepsRequests(s: State, id: nat)
    requires Inv(s) && Enabled(s, Push(id))
    ensures var t := Pushed(s, id);
            && t.count == s.count && |t.reqs| == |s.reqs|
            && (forall i :: 0 <= i < |t.reqs| ==> RequestInv(t.count, t.reqs[i]))
            && (forall i :: 0 <= i < |t.reqs| && t.reqs[i].place == Queued ==> i in QueueOf(t, t.reqs[i].index))
            && (forall k :: k in t.pending ==> t.pending[k] != [])
  {
    var t := Pushed(s, id);
    assert t.reqs == s.reqs[id := s.reqs[id].(place := Queued)] && t.count == s.count;
    forall i | 0 <= i < |t.reqs| && t.reqs[i].place == Queued ensures i in QueueOf(t, t.reqs[i].index) {
      PushExtendsQueue(s, id, t.reqs[i].index);
    }
    forall k | k in t.pending ensures t.pending[k] != [] {
      PushExtendsQueue(s, id, Some(k));
    }
  }

  lemma PushKeepsInv(s: State, id: nat)
    requires Inv(s) && Enabled(s, Push(id))
    ensures Inv(Pushed(s, id))
  {
    PushKeepsRequests(s, id);
    forall key: Option<nat> ensures QueueInv(Pushed(s, id), key) {
      PushKeepsQueue(s, id, key);
    }
  }

  lemma ReplyKeepsInv(s: State, key: Option<nat>, resp: Response)
    requires Inv(s) && Enabled(s, Reply(key, resp))
    ensures Inv(Replied(s, key, resp))
  {
    var t := Replied(s, key, resp);
    forall k: Option<nat> ensures QueueInv(t, k) {
      assert QueueInv(s, k);
      assert QueueOf(t, k) == QueueOf(s, k);
    }
    forall i | 0 <= i < |t.reqs| && t.reqs[i].place == Queued ensures i in QueueOf(t, t.reqs[i].index) {
      assert QueueOf(t, t.reqs[i].index) == QueueOf(s, s.reqs[i].index);
    }
  }

  /** The source asserts that the requests waiting for the partition count have no index yet. */
  lemma UnknownHaveNoIndex(s: State, id: nat)
    requires Inv(s) && id in s.unknown
    ensures id < |s.reqs| && s.reqs[id].index == None
  {
    assert QueueInv(s, None) && QueueOf(s, None) == s.unknown;
  }

  lemma TakenAreQueued(s: State, key: Option<nat>, id: nat)
    requires Inv(s) && Taken(s, key, id)
    ensures id < |s.reqs| && s.reqs[id].place == Queued && (key.Some? ==> s.reqs[id].index == key)
  {
    if key.Some? || id in s.unknown {
      assert QueueInv(s, key);
    } else {
      var k :| k in s.pending && id in s.pending[k];
      assert QueueInv(s, Some(k));
      assert QueueOf(s, Some(k)) == s.pending[k];
    }
  }

  lemma DrainEmptiesQueue(s: State, key: Option<nat>, k: Option<nat>)
    requires Inv(s) && Enabled(s, Drain(key))
    ensures QueueOf(Drained(s, key), k) == if key.Some? && k != key then QueueOf(s, k) else []
    ensures QueueInv(Drained(s, key), k)
  {
    assert QueueInv(s, k);
    if key.Some? && k != key {
      forall id | id in QueueOf(s, k) ensures !Taken(s, key, id) {
        assert QueueInv(s, key);
      }
    }
  }

  /** A reply drains its queue whichever query created it, or all queues; queries left over do no harm. */
  lemma DrainKeepsInv(s: State, key: Option<nat>)
    requires Inv(s) && Enabled(s, Drain(key))
    ensures Inv(Drained(s, key))
  {
    var t := Drained(s, key);
    forall k: Option<nat> ensures QueueInv(t, k) {
      DrainEmptiesQueue(s, key, k);
    }
    forall i | 0 <= i < |t.reqs|
      ensures RequestInv(t.count, t.reqs[i])
      ensures t.reqs[i].place == Queued ==> i in QueueOf(t, t.reqs[i].index)
    {
      assert RequestInv(s.count, s.reqs[i]);
      DrainEmptiesQueue(s, key, s.reqs[i].index);
      if Taken(s, key, i) { TakenAreQueued(s, key, i); }
    }
  }

  /** The request keeps its invariant, its index and its queue. */
  ghost predicate StaysPut(count: Option<nat>, r: Request, next: Request) {
    RequestInv(count, next) && next.index == r.index && (next.place == Queued <==> r.place == Queued)
  }

  lemma CallKeepsRequest(count: Option<nat>, r: Request, addr: nat, late: bool)
    requires RequestInv(count, r) && r.place.AtCall? && (addr != 0 ==> r.index.Some?)
    ensures StaysPut(count, r, CallStep(r, addr, late))
  {}

  lemma HandleKeepsRequest(count: Option<nat>, r: Request, err: Code, addr: nat)
    requires RequestInv(count, r) && r.place == InHand && (addr != 0 ==> r.index.Some?)
    ensures StaysPut(count, r, HandleStep(r, err, addr))
  {}

  lemma TimerKeepsRequest(count: Option<nat>, r: Request)
    requires RequestInv(count, r)
    ensures StaysPut(count, r, EndRequest(r, Timeout, 0, true).(timer := Spent))
    ensures r.timer == Armed ==> StaysPut(count, r, r.(timer := Firing))
    ensures r.place == AtArm ==>
              StaysPut(count, r, r.(place := AtPush, timer := if r.timer == NoTimer then Armed else r.timer))
  {}

  lemma CallKeepsInv(s: State, id: nat, late: bool, pick: nat)
    requires Inv(s) && Enabled(s, Call(id, late, pick))
    ensures Inv(Apply(s, Call(id, late, pick)))
  {
    var r := s.reqs[id];
    assert RequestInv(s.count, r);
    CallKeepsRequest(s.count, r, Address(s, r.index, pick), late);
    LocalKeepsInv(s, id, CallStep(r, Address(s, r.index, pick), late));
  }

  lemma HandleKeepsInv(s: State, id: nat, err: Code, pick: nat)
    requires Inv(s) && Enabled(s, Handle(id, err, pick))
    ensures Inv(Apply(s, Handle(id, err, pick)))
  {
    var r := s.reqs[id];
    assert RequestInv(s.count, r);
    HandleKeepsRequest(s.count, r, err, Address(s, r.index, pick));
    LocalKeepsInv(s, id, HandleStep(r, err, Address(s, r.index, pick)));
  }

  /** The steps of a request's timer. */
  lemma TimerKeepsInv(s: State, e: Event)
    requires Inv(s) && Enabled(s, e) && (e.ArmTimer? || e.TimerFires? || e.OnTimeout?)
    ensures Inv(Apply(s, e))
  {
    var r := s.reqs[e.id];
    assert RequestInv(s.count, r);
    TimerKeepsRequest(s.count, r);
    LocalKeepsInv(s, e.id, Apply(s, e).reqs[e.id]);
  }

  lemma StepKeepsInv(s: State, e: Event)
    requires Inv(s) && Enabled(s, e)
    ensures Inv(Apply(s, e))
  {
    match e
    case Resolve(hash, pick) => ResolveKeepsInv(s, hash, pick);
    case Push(id) => PushKeepsInv(s, id);
    case Reply(key, resp) => ReplyKeepsInv(s, key, resp);
    case Drain(key) => DrainKeepsInv(s, key);
    case AccessFailure(_, _) => CacheKeepsInv(s, Apply(s, e).cache);
    case Call(id, late, pick) => CallKeepsInv(s, id, late, pick);
    case Handle(id, err, pick) => HandleKeepsInv(s, id, err, pick);
    case _ => TimerKeepsInv(s, e);
  }

  lemma CacheKeepsInv(s: State, cache: Cache)
    requires Inv(s)
    ensures Inv(s.(cache := cache))
  {
    var t := s.(cache := cache);
    forall key: Option<nat> ensures QueueInv(t, key) && QueueOf(t, key) == QueueOf(s, key) {
      assert QueueInv(s, key);
    }
  }

  lemma {:induction false} RunKeepsInv(s: State, es: seq<Event>, t: State)
    requires Inv(s) && Runs(s, es, t)
    ensures Inv(t)
    decreases |es|
  {
    if es != [] {
      StepKeepsInv(s, es[0]);
      RunKeepsInv(Apply(s, es[0]), es[1..], t);
    }
  }

  /** What holds of every request in every run. */
  ghost predicate Served(s: State, r: Request, id: nat) {
    && |r.answers| <= 1 && (|r.answers| == 1 <==> r.completed)
    && (r.completed && r.answers[0].err == Ok ==>
          && r.answers[0].addr != 0 && s.count.Some? && s.count.value > 0
          && r.answers[0].index == Some(r.hash % s.count.value))
    && (!r.completed ==> r.place != Ended)
    && (!r.completed && r.place == Queued ==>
          Live(r.timer) && id in QueueOf(s, r.index) && Outstanding(s, r.index))
  }

  /** In every run each request's callback is called at most once, an address is only given for the request's
      own partition, no open request is lost, and an open request in a queue has a live timeout and a
      config query on its way for that queue. */
  lemma EveryRequestIsServed(es: seq<Event>, t: State, id: nat)
    requires Runs(Initial(), es, t) && id < |t.reqs|
    ensures Served(t, t.reqs[id], id)
  {
    forall key: Option<nat> ensures QueueInv(Initial(), key) {}
    RunKeepsInv(Initial(), es, t);
    assert RequestInv(t.count, t.reqs[id]);
    assert QueueInv(t, t.reqs[id].index);
  }

  // ---- the cache along a run -------------------------------------------------------------------------

  function Learns(configs: seq<(nat, Configuration)>): seq<Change> {
    if configs == [] then []
    else var n := |configs| - 1; Learns(configs[..n]) + [Learn(configs[n].0, configs[n].1)]
  }

  function Changes(e: Event): seq<Change> {
    match e
    case Reply(_, Success(_, _, configs)) => Learns(configs)
    case AccessFailure(index, error) => [Failed(index, error)]
    case _ => []
  }

  function AllChanges(es: seq<Event>): seq<Change> {
    if es == [] then [] else Changes(es[0]) + AllChanges(es[1..])
  }

  /** Every configuration the run learns is one of a stateful app, or every one is of a stateless app. */
  ghost predicate OfKind(es: seq<Event>, stateful: bool) {
    forall i :: 0 <= i < |es| ==> es[i].Reply? && es[i].resp.Success? ==> es[i].resp.stateful == stateful
  }

  lemma {:induction false} LearnsAreChanges(stateful: bool, before: seq<Change>, configs: seq<(nat, Configuration)>)
    ensures CacheAfter(stateful, before + Learns(configs)) == LearnedAll(CacheAfter(stateful, before), stateful, configs)
  {
    if configs == [] {
      assert before + Learns(configs) == before;
    } else {
      var n := |configs| - 1;
      LearnsAreChanges(stateful, before, configs[..n]);
      var changes := before + Learns(configs);
      assert changes[..|changes| - 1] == before + Learns(configs[..n]);
    }
  }

  /** The cache is what these changes make of it, and the resolver knows the kind of the app once anything is cached. */
  ghost predicate Knows(s: State, stateful: bool, changes: seq<Change>) {
    s.cache == CacheAfter(stateful, changes) && (s.stateful == stateful || s.cache == map[])
  }

  lemma StepChangesCache(s: State, e: Event, stateful: bool, before: seq<Change>)
    requires Enabled(s, e) && Knows(s, stateful, before)
    requires e.Reply? && e.resp.Success? ==> e.resp.stateful == stateful
    ensures Knows(Apply(s, e), stateful, before + Changes(e))
  {
    var changes := before + Changes(e);
    if e.Reply? && e.resp.Success? {
      LearnsAreChanges(stateful, before, e.resp.configs);
    } else if e.AccessFailure? {
      assert changes[..|changes| - 1] == before;
    } else {
      assert changes == before;
    }
  }

  lemma ChangesSplit(es: seq<Event>, before: seq<Change>)
    requires es != []
    ensures before + AllChanges(es) == before + Changes(es[0]) + AllChanges(es[1..])
  {
    var first, rest := Changes(es[0]), AllChanges(es[1..]);
    assert before + (first + rest) == before + first + rest;
  }

  /** The cache is what all replies and access failures, in their order, make of it. */
  lemma {:induction false} CacheFollowsRun(s: State, es: seq<Event>, t: State, stateful: bool, before: seq<Change>)
    requires Runs(s, es, t) && OfKind(es, stateful) && Knows(s, stateful, before)
    ensures Knows(t, stateful, before + AllChanges(es))
    decreases |es|
  {
    if es == [] {
      assert before + AllChanges(es) == before;
    } else {
      StepChangesCache(s, es[0], stateful, before);
      CacheFollowsRun(Apply(s, es[0]), es[1..], t, stateful, before + Changes(es[0]));
      ChangesSplit(es, before);
    }
  }

  lemma CacheOfRun(es: seq<Event>, t: State, stateful: bool)
    requires Runs(Initial(), es, t) && OfKind(es, stateful)
    ensures Knows(t, stateful, AllChanges(es))
  {
    CacheFollowsRun(Initial(), es, t, stateful, []);
    assert [] + AllChanges(es) == AllChanges(es);
  }

  /** So at any time it holds, for each partition of a stateful app, the first reply with the highest ballot since the
      partition's last invalidation. */
  lemma CachedIsFreshest(es: seq<Event>, t: State, p: nat)
    requires Runs(Initial(), es, t) && OfKind(es, true)
    ensures p in t.cache <==> exists i: nat :: Freshest(AllChanges(es), p, i)
    ensures forall i: nat :: Freshest(AllChanges(es), p, i) ==> t.cache[p] == AllChanges(es)[i].config
  {
    CacheOfRun(es, t, true);
    assert t.cache == CacheAfter(true, AllChanges(es));
    CacheIsFreshest(AllChanges(es), p);
  }

  /** And for a stateless app simply the last one. */
  lemma CachedIsLatest(es: seq<Event>, t: State, p: nat)
    requires Runs(Initial(), es, t) && OfKind(es, false)
    ensures p in t.cache <==> exists i: nat :: Latest(AllChanges(es), p, i)
    ensures forall i: nat :: Latest(AllChanges(es), p, i) ==> t.cache[p] == AllChanges(es)[i].config
  {
    CacheOfRun(es, t, false);
    assert t.cache == CacheAfter(false, AllChanges(es));
    CacheIsLatest(AllChanges(es), p);
  }
}
