/** The resolver object itself. Each method is one lock-protected section, or a loop over such sections, and is
    tied to the steps of the protocol. */
module PartitionResolver {
  import opened Options
  import opened ConfigCache
  import opened Resolver
  import opened ResolverAnswers

  lemma {:induction false} RunsSnoc(s: State, es: seq<Event>, t: State, e: Event)
    requires Runs(s, es, t) && Enabled(t, e)
    ensures Runs(s, es + [e], Apply(t, e))
    decreases |es|
  {
    if es != [] {
      RunsSnoc(Apply(s, es[0]), es[1..], t, e);
      assert (es + [e])[1..] == es[1..] + [e];
    }
  }

  /** The loop over a reply's configurations. */
  method TakeIn(cache: Cache, stateful: bool, configs: seq<(nat, Configuration)>) returns (r: Cache)
    ensures r == LearnedAll(cache, stateful, configs)
  {
    r := cache;
    for i := 0 to |configs|
      invariant r == LearnedAll(cache, stateful, configs[..i])
    {
      assert configs[..i + 1][..i] == configs[..i];
      var p, config := configs[i].0, configs[i].1;
      if p !in r {
        r := r[p := config];
      } else if stateful && r[p].ballot < config.ballot {
        r := r[p := config];
      } else if !stateful {
        r := r[p := config];
      }
    }
    assert configs[..|configs|] == configs;
  }

  /** The loop that gives an index to the requests that waited for the partition count. */
  method Reindex(reqs: seq<Request>, ids: seq<nat>, count: nat) returns (rs: seq<Request>)
    requires count > 0 && forall id :: id in ids ==> id < |reqs|
    ensures |rs| == |reqs|
    ensures forall id :: 0 <= id < |rs| ==>
              rs[id] == if id in ids then reqs[id].(index := Some(Index(count, reqs[id].hash))) else reqs[id]
  {
    rs := reqs;
    for i := 0 to |ids|
      invariant |rs| == |reqs|
      invariant forall id :: 0 <= id < |rs| ==>
                  rs[id] == if id in ids[..i] then reqs[id].(index := Some(Index(count, reqs[id].hash))) else reqs[id]
    {
      assert ids[i] in ids;
      var r := rs[ids[i]];
      rs := rs[ids[i] := r.(index := Some(Index(count, r.hash)))];
    }
  }

  /** All queued requests pass into the hands of the thread that got the reply. */
  method HandOver(s: State) returns (rs: seq<Request>)
    requires s.count != Some(0) && forall id :: id in s.unknown ==> id < |s.reqs|
    ensures rs == Drained(s, None).reqs
  {
    rs := seq(|s.reqs|, id requires 0 <= id < |s.reqs| =>
      if Taken(s, None, id) then s.reqs[id].(place := InHand) else s.reqs[id]);
    if s.count.Some? {
      rs := Reindex(rs, s.unknown, s.count.value);
    }
    assert forall id :: 0 <= id < |rs| ==> rs[id] == TakenOut(s, None, id);
  }

  class PartitionResolver {
    var count: Option<nat>
    var stateful: bool
    var cache: Cache
    var reqs: seq<Request>
    var pending: map<nat, seq<nat>>
    var unknown: seq<nat>
    var sent: multiset<Option<nat>>
    var answered: multiset<Option<nat>>

    ghost function Now(): State
      reads this
    {
      State(count, stateful, cache, reqs, pending, unknown, sent, answered)
    }

    constructor ()
      ensures Now() == Initial()
    {
      count, stateful, cache, reqs := None, true, map[], [];
      pending, unknown, sent, answered := map[], [], multiset{}, multiset{};
    }

    method GetAddress(index: Option<nat>, pick: nat) returns (addr: nat)
      ensures addr == Address(Now(), index, pick)
      ensures index.Some? && index.value in cache ==>
                if stateful then addr == cache[index.value].primary
                else if cache[index.value].lastDrops == [] then addr == 0 else addr in cache[index.value].lastDrops
    {
      if index.None? || index.value !in cache { return 0; }
      var c := cache[index.value];
      if stateful { return c.primary; }
      if c.lastDrops == [] { return 0; }
      addr := c.lastDrops[pick % |c.lastDrops|];
    }

    /** end_request; `drop` when the caller lets go of the request. */
    method End(id: nat, err: Code, addr: nat, byTimer: bool)
      requires id < |reqs|
      modifies `reqs
      ensures reqs == old(reqs)[id := EndRequest(old(reqs)[id], err, addr, byTimer)]
    {
      var r := reqs[id];
      if r.completed { return; }
      if !byTimer && r.timer == Armed {
        r := r.(timer := Spent);
      }
      r := r.(answers := r.answers + [Answer(err, addr, r.index)]);
      reqs := reqs[id := r.(completed := true)];
    }

    /** resolve: a request the cache cannot answer goes on to call. */
    method Resolve(hash: nat, pick: nat) returns (id: nat)
      requires count != Some(0)
      modifies `reqs
      ensures id == |old(reqs)| && reqs == old(reqs) + [NewRequest(old(Now()), hash, pick)]
      ensures reqs[id].completed ==>
                |reqs[id].answers| == 1 && Cached(Now(), reqs[id].answers[0].index, reqs[id].answers[0].addr)
    {
      id := |reqs|;
      var index, addr := None, 0;
      if count.Some? {
        index := Some(Index(count.value, hash));
        addr := GetAddress(index, pick);
      }
      var r := Request(hash, index, AtCall(false), NoTimer, false, []);
      if addr != 0 {
        r := r.(answers := r.answers + [Answer(Ok, addr, index)], completed := true, place := Ended);
      }
      reqs := reqs + [r];
    }

    /** The first section of call. */
    method CallFirst(id: nat, late: bool, pick: nat)
      requires id < |reqs| && reqs[id].place.AtCall?
      modifies `reqs
      ensures reqs == old(reqs)[id := CallStep(old(reqs)[id], Address(old(Now()), old(reqs)[id].index, pick), late)]
    {
      var addr := GetAddress(reqs[id].index, pick);
      if addr != 0 || late {
        End(id, if addr != 0 then Ok else Timeout, addr, false);
        reqs := reqs[id := reqs[id].(place := Ended)];
      } else if reqs[id].place.fromMetaAck {
        reqs := reqs[id := reqs[id].(place := AtCall(false))];
      } else {
        reqs := reqs[id := reqs[id].(place := AtArm)];
      }
    }

    /** The second section: the timer is armed once. */
    method ArmTimeout(id: nat)
      requires Enabled(Now(), ArmTimer(id))
      modifies `reqs
      ensures reqs == Apply(old(Now()), ArmTimer(id)).reqs
    {
      var r := reqs[id];
      if r.timer == NoTimer {
        r := r.(timer := Armed);
      }
      reqs := reqs[id := r.(place := AtPush)];
    }

    method FireTimeout(id: nat)
      requires Enabled(Now(), OnTimeout(id))
      modifies `reqs
      ensures Now() == Apply(old(Now()), OnTimeout(id))
    {
      End(id, Timeout, 0, true);
      reqs := reqs[id := reqs[id].(timer := Spent)];
    }

    /** The last section of call: the request joins its queue. */
    method Enqueue(id: nat)
      requires id < |reqs| && reqs[id].place == AtPush
      modifies `reqs, `pending, `unknown, `sent
      ensures var t := Pushed(old(Now()), id);
              reqs == t.reqs && pending == t.pending && unknown == t.unknown && sent == t.sent
    {
      var index := reqs[id].index;
      reqs := reqs[id := reqs[id].(place := Queued)];
      if index.Some? {
        var p := index.value;
        if p !in pending {
          pending := pending[p := []];
          sent := sent + multiset{index};
        }
        pending := pending[p := pending[p] + [id]];
      } else {
        unknown := unknown + [id];
        if |unknown| == 1 {
          sent := sent + multiset{index};
        }
      }
    }

    /** The first section of query_config_reply: the cache takes in the configurations. */
    method OnReply(key: Option<nat>, resp: Response)
      requires resp.Success? && count.Some? ==> resp.count == count.value
      modifies `count, `stateful, `cache, `sent, `answered
      ensures sent == old(sent) - multiset{key} && answered == old(answered) + multiset{key}
      ensures resp.Failure? ==> count == old(count) && stateful == old(stateful) && cache == old(cache)
      ensures resp.Success? ==>
                && count == Some(resp.count) && stateful == resp.stateful
                && cache == LearnedAll(old(cache), resp.stateful, resp.configs)
    {
      sent, answered := sent - multiset{key}, answered + multiset{key};
      if resp.Success? {
        count, stateful := Some(resp.count), resp.stateful;
        cache := TakeIn(cache, stateful, resp.configs);
      }
    }

    /** The second section: the queues are handed over; requests that waited for the partition count get their
        index. */
    method TakeAll()
      requires count != Some(0) && forall id :: id in unknown ==> id < |reqs|
      modifies `reqs, `pending, `unknown, `answered
      ensures var t := Drained(old(Now()), None);
              reqs == t.reqs && pending == t.pending && unknown == t.unknown && answered == t.answered
    {
      var s := State(count, stateful, cache, reqs, pending, unknown, sent, answered);
      pending, unknown, answered := map[], [], answered - multiset{None};
      reqs := HandOver(s);
    }

    method HandleRequest(id: nat, seen: Code, pick: nat) returns (err: Code)
      requires Enabled(Now(), Handle(id, seen, pick))
      modifies `reqs
      ensures Now() == Apply(old(Now()), Handle(id, seen, pick))
      ensures err == if seen == Ok && Address(old(Now()), old(reqs)[id].index, pick) == 0 then Retry else seen
    {
      err := seen;
      var addr := 0;
      if err == Ok {
        addr := GetAddress(reqs[id].index, pick);
        err := if addr == 0 then Retry else Ok;
      }
      if err == Ok || err == Final {
        End(id, err, addr, false);
        reqs := reqs[id := reqs[id].(place := Ended)];
      } else {
        reqs := reqs[id := reqs[id].(place := AtCall(true))];
      }
    }

    /** handle_pending_requests: after one failed lookup the rest of the queue is not looked up. */
    method HandlePendingRequests(ids: seq<nat>, client: Code, picks: seq<nat>) returns (ghost es: seq<Event>)
      requires |picks| == |ids|
      requires forall i :: 0 <= i < |ids| ==> ids[i] < |reqs| && reqs[ids[i]].place == InHand
      requires forall i, j :: 0 <= i < j < |ids| ==> ids[i] != ids[j]
      modifies `reqs
      ensures Runs(old(Now()), es, Now()) && |reqs| == |old(reqs)|
      ensures forall i :: 0 <= i < |ids| ==> reqs[ids[i]].place == Ended || reqs[ids[i]].place == AtCall(true)
    {
      es := [];
      var err := client;
      for i := 0 to |ids|
        invariant |reqs| == |old(reqs)| && Runs(old(Now()), es, Now())
        invariant forall k :: 0 <= k < i ==> reqs[ids[k]].place == Ended || reqs[ids[k]].place == AtCall(true)
        invariant forall k :: i <= k < |ids| ==> reqs[ids[k]].place == InHand
      {
        ghost var e := Handle(ids[i], err, picks[i]);
        RunsSnoc(old(Now()), es, Now(), e);
        es := es + [e];
        err := HandleRequest(ids[i], err, picks[i]);
      }
    }

    method OnAccessFailure(index: Option<nat>, err: AccessError)
      modifies `cache
      ensures cache == Changed(old(cache), stateful, Failed(index, err))
    {
      if index.Some? && err != CapacityExceeded && err != NotEnoughMember && err != OperationDisabled && err != Busy {
        cache := cache - {index.value};
      }
    }
  }
}
