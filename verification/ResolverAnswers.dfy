/** Where the resolver's answers come from: over every run, each answer has an event that gave it, and an address is
    that of a server which the cache named at that moment. */
module ResolverAnswers {
  import opened Options
  import opened ConfigCache
  import opened Resolver

  /** The servers a client may be sent to: the primary of a stateful app's partition, or any of the servers that a
      stateless app's configuration lists. */
  predicate Names(stateful: bool, c: Configuration, addr: nat) {
    if stateful then addr == c.primary else addr in c.lastDrops
  }

  predicate Cached(s: State, p: Option<nat>, addr: nat) {
    p.Some? && p.value in s.cache && Names(s.stateful, s.cache[p.value], addr)
  }

  /** get_address gives an address that the cached configuration names, and gives none only if it names none: nothing
      is cached, the partition has no primary, or the list is empty. */
  lemma AddressIsNamed(s: State, index: Option<nat>, pick: nat)
    ensures Address(s, index, pick) != 0 ==> Cached(s, index, Address(s, index, pick))
    ensures index.Some? && index.value in s.cache ==>
              var c := s.cache[index.value];
              && (s.stateful ==> Address(s, index, pick) == c.primary)
              && (!s.stateful && c.lastDrops != [] ==> Address(s, index, pick) in c.lastDrops)
  {}

  /** What must have happened in state s, at event e, for request id to get this answer. */
  ghost predicate Caused(s: State, e: Event, id: nat, ans: Answer) {
    match ans.err
    case Ok =>
      && Cached(s, ans.index, ans.addr)
      && (e.Resolve? || (e.Call? && e.id == id) || (e.Handle? && e.id == id && e.err == Ok))
    case Timeout => e == OnTimeout(id) || (e.Call? && e.id == id && e.late)
    case Final => e.Handle? && e.id == id && e.err == Final
    case Retry => false
  }

  function AnswersOf(s: State, id: nat): seq<Answer> {
    if id < |s.reqs| then s.reqs[id].answers else []
  }

  /** The answers are left alone, or one is added that the event is the cause of. */
  ghost predicate MayAnswer(s: State, e: Event, id: nat, before: seq<Answer>, after: seq<Answer>) {
    || after == before
    || (|after| == |before| + 1 && after[..|before|] == before && Caused(s, e, id, after[|before|]))
  }

  lemma EndMayAnswer(s: State, e: Event, id: nat, r: Request, err: Code, addr: nat, byTimer: bool)
    requires Caused(s, e, id, Answer(err, addr, r.index))
    ensures MayAnswer(s, e, id, r.answers, EndRequest(r, err, addr, byTimer).answers)
  {}

  lemma CallMayAnswer(s: State, e: Event)
    requires Enabled(s, e) && (e.Call? || e.Handle?)
    ensures MayAnswer(s, e, e.id, s.reqs[e.id].answers, Apply(s, e).reqs[e.id].answers)
  {
    var r, addr := s.reqs[e.id], Address(s, s.reqs[e.id].index, e.pick);
    AddressIsNamed(s, r.index, e.pick);
    if addr != 0 && (e.Call? || e.err == Ok) {
      EndMayAnswer(s, e, e.id, r, Ok, addr, false);
    }
  }

  /** Queues, replies and timers that only tick change no answers. */
  lemma QueuesAnswerNothing(s: State, e: Event, id: nat)
    requires Enabled(s, e) && !e.Resolve? && !e.Call? && !e.Handle? && !e.OnTimeout?
    ensures |Apply(s, e).reqs| == |s.reqs| && AnswersOf(Apply(s, e), id) == AnswersOf(s, id)
  {
    match e
    case Push(k) => assert Pushed(s, k).reqs == s.reqs[k := s.reqs[k].(place := Queued)];
    case _ =>
  }

  /** So does every step. */
  lemma StepCausesAnswer(s: State, e: Event, id: nat)
    requires Enabled(s, e)
    ensures |s.reqs| <= |Apply(s, e).reqs|
    ensures MayAnswer(s, e, id, AnswersOf(s, id), AnswersOf(Apply(s, e), id))
  {
    match e
    case Resolve(hash, pick) => NewCausesAnswer(s, hash, pick);
    case Call(_, _, _) => CallMayAnswer(s, e);
    case Handle(_, _, _) => CallMayAnswer(s, e);
    case OnTimeout(k) => EndMayAnswer(s, e, k, s.reqs[k], Timeout, 0, true);
    case _ => QueuesAnswerNothing(s, e, id);
  }

  lemma NewCausesAnswer(s: State, hash: nat, pick: nat)
    requires s.count != Some(0)
    ensures var r := NewRequest(s, hash, pick);
            r.answers == [] || (|r.answers| == 1 && r.answers[0].err == Ok
                                && Cached(s, r.answers[0].index, r.answers[0].addr))
  {
    AddressIsNamed(s, if s.count.Some? then Some(Index(s.count.value, hash)) else None, pick);
  }

  /** After the first k events the run was in state mid, and the next one gave the answer. */
  ghost predicate GivenAt(s: State, es: seq<Event>, k: nat, mid: State, id: nat, ans: Answer) {
    k < |es| && Runs(s, es[..k], mid) && Caused(mid, es[k], id, ans)
  }

  lemma RunsPrefix(s: State, es: seq<Event>, k: nat, mid: State)
    requires es != [] && Enabled(s, es[0]) && k < |es| && Runs(Apply(s, es[0]), es[1..][..k], mid)
    ensures Runs(s, es[..k + 1], mid)
  {
    assert es[..k + 1][1..] == es[1..][..k];
  }

  /** Every answer that a run adds was given at some point of it. */
  lemma {:induction false} RunCausesAnswer(s: State, es: seq<Event>, t: State, id: nat) returns (k: nat, mid: State)
    requires Runs(s, es, t) && AnswersOf(s, id) == [] && AnswersOf(t, id) != []
    ensures GivenAt(s, es, k, mid, id, AnswersOf(t, id)[0])
    decreases |es|
  {
    var u := Apply(s, es[0]);
    StepCausesAnswer(s, es[0], id);
    if AnswersOf(u, id) == [] {
      k, mid := RunCausesAnswer(u, es[1..], t, id);
      RunsPrefix(s, es, k, mid);
      k := k + 1;
    } else {
      k, mid := 0, s;
      FirstAnswerStays(u, es[1..], t, id);
    }
  }

  lemma {:induction false} FirstAnswerStays(s: State, es: seq<Event>, t: State, id: nat)
    requires Runs(s, es, t) && AnswersOf(s, id) != []
    ensures AnswersOf(t, id) != [] && AnswersOf(t, id)[0] == AnswersOf(s, id)[0]
    decreases |es|
  {
    if es != [] {
      StepCausesAnswer(s, es[0], id);
      FirstAnswerStays(Apply(s, es[0]), es[1..], t, id);
    }
  }

  /** In every run, each answer has its cause: an address was named by the cache at that moment, a timeout is that of
      the request's own timer or of a late call, and a final error came with a reply. */
  lemma AnswersHaveCauses(es: seq<Event>, t: State, id: nat) returns (k: nat, mid: State)
    requires Runs(Initial(), es, t) && id < |t.reqs| && t.reqs[id].completed
    ensures |t.reqs[id].answers| == 1 && GivenAt(Initial(), es, k, mid, id, t.reqs[id].answers[0])
  {
    EveryRequestIsServed(es, t, id);
    k, mid := RunCausesAnswer(Initial(), es, t, id);
  }

  /** The configuration of partition p that the replies and access failures so far leave in force: the first with the
      highest ballot for a stateful app, the last one for a stateless app, since the last invalidation. */
  ghost predicate InForce(stateful: bool, changes: seq<Change>, p: nat, i: nat) {
    if stateful then Freshest(changes, p, i) else Latest(changes, p, i)
  }

  /** So a client is only ever sent to a server named by the configuration in force at that moment: the primary of a
      stateful app's partition, one of the listed servers of a stateless app's. */
  lemma AddressesAreInForce(es: seq<Event>, t: State, id: nat, stateful: bool) returns (k: nat, p: nat, i: nat)
    requires Runs(Initial(), es, t) && OfKind(es, stateful)
    requires id < |t.reqs| && t.reqs[id].completed && t.reqs[id].answers != [] && t.reqs[id].answers[0].err == Ok
    ensures k < |es| && t.reqs[id].answers[0].index == Some(p)
    ensures i < |AllChanges(es[..k])| && AllChanges(es[..k])[i].Learn?
    ensures InForce(stateful, AllChanges(es[..k]), p, i)
    ensures Names(stateful, AllChanges(es[..k])[i].config, t.reqs[id].answers[0].addr)
  {
    var mid;
    k, mid := AnswersHaveCauses(es, t, id);
    p := t.reqs[id].answers[0].index.value;
    var changes := AllChanges(es[..k]);
    assert OfKind(es[..k], stateful) && p in mid.cache;
    CacheOfRun(es[..k], mid, stateful);
    if stateful {
      i := FreshestChange(changes, p);
    } else {
      i := LatestChange(changes, p);
    }
  }

  /** And a client is sent there whenever the cache can: a request for a partition with a known primary is answered
      with it when it is made, called or handled. */
  lemma KnownIsAnswered(s: State, e: Event, id: nat, p: nat)
    requires Inv(s) && Enabled(s, e) && s.stateful && p in s.cache && s.cache[p].primary != 0
    requires if e.Resolve? then id == |s.reqs| && s.count.Some? && p == e.hash % s.count.value
             else ((e.Call? && e.id == id) || (e.Handle? && e.id == id && e.err == Ok))
                  && s.reqs[id].index == Some(p) && !s.reqs[id].completed
    ensures var t := Apply(s, e);
            id < |t.reqs| && t.reqs[id].completed && t.reqs[id].answers == [Answer(Ok, s.cache[p].primary, Some(p))]
  {
    if !e.Resolve? {
      assert RequestInv(s.count, s.reqs[id]);
    }
  }

  /** An open request whose timer fires, that is called too late, or whose reply is a final error gets just that. */
  lemma ErrorsAreAnswered(s: State, e: Event, id: nat)
    requires Inv(s) && Enabled(s, e) && id < |s.reqs| && !s.reqs[id].completed
    requires || e == OnTimeout(id) || (e.Handle? && e.id == id && e.err == Final)
             || (e.Call? && e.id == id && e.late && Address(s, s.reqs[id].index, e.pick) == 0)
    ensures var r := Apply(s, e).reqs[id];
            r.completed && r.answers == [Answer(if e.Handle? then Final else Timeout, 0, s.reqs[id].index)]
  {
    assert RequestInv(s.count, s.reqs[id]);
  }

  /** A request for a partition of a stateless app is answered with one of the servers listed. */
  lemma ListedIsAnswered(s: State, hash: nat, pick: nat, p: nat)
    requires Inv(s) && !s.stateful && s.count.Some? && p == hash % s.count.value && p in s.cache
    requires s.cache[p].lastDrops != [] && 0 !in s.cache[p].lastDrops
    ensures var r := Apply(s, Resolve(hash, pick)).reqs[|s.reqs|];
            |r.answers| == 1 && r.answers[0].err == Ok && r.answers[0].addr in s.cache[p].lastDrops
  {
    AddressIsNamed(s, Some(p), pick);
  }
}
