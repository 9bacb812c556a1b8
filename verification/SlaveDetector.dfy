/** The worker side with several meta servers (failure_detector_multimaster.cpp): one master record follows
    the leader of the group of meta servers. */
module SlaveDetector {
  import opened FailureDetector

  /** The group, the index of its leader, and the one master record. */
  datatype Slave = Slave(members: seq<nat>, leader: nat, record: MasterRecord) {
    /** Members are distinct valid addresses, and the record belongs to the leader. */
    ghost predicate Valid() {
      && leader < |members| && record.node == members[leader]
      && (forall i :: 0 <= i < |members| ==> members[i] != 0)
      && forall i, j :: 0 <= i < j < |members| ==> members[i] != members[j]
    }
  }

  datatype PingOutcome = PingOutcome(err: Error, ack: BeaconAck, now: nat)

  function IndexOf(members: seq<nat>, a: nat): (i: nat)
    ensures i <= |members|
    ensures i < |members| ==> members[i] == a
    ensures i == |members| ==> a !in members
  {
    if members == [] then 0 else if members[0] == a then 0 else 1 + IndexOf(members[1..], a)
  }

  /** rpc_group_address::next for a member: the following one, cyclically. */
  function NextOf(members: seq<nat>, i: nat): nat
    requires i < |members|
  {
    if i + 1 < |members| then members[i + 1] else members[0]
  }

  /** Whom the slave talks to after a ping result that applies. */
  function NextLeader(s: Slave, o: PingOutcome): nat
    requires s.leader < |s.members|
  {
    if o.err == ERR_OK && o.ack.isMaster then s.members[s.leader]
    else if o.err == ERR_OK && o.ack.primaryNode != 0 then o.ack.primaryNode
    else NextOf(s.members, s.leader)
  }

  /** The leader becomes `to`, and the record goes with it. */
  function Followed(s: Slave, to: nat): Slave
    requires s.leader < |s.members|
  {
    if to == s.members[s.leader] then s
    else
      var i := IndexOf(s.members, to);
      Slave(if i < |s.members| then s.members else s.members + [to], i, s.record.(node := to, rejected := false))
  }

  /** end_ping: the record takes the ack, then follows the leader. */
  function EndPingOnSlave(tm: Timing, s: Slave, o: PingOutcome): Slave
    requires s.leader < |s.members|
  {
    if o.ack.thisNode != s.members[s.leader] then s
    else
      var r := EndPing(tm, s.record, o.err, o.ack, o.now);
      if r.1 then Followed(s.(record := r.0), NextLeader(s, o)) else s.(record := r.0)
  }

  lemma StepKeepsSlave(tm: Timing, s: Slave, o: PingOutcome)
    requires s.Valid()
    ensures var t := EndPingOnSlave(tm, s, o);
            && t.Valid() && s.members <= t.members && t.record.lastSend >= s.record.lastSend
            && (t.record.lastSend > s.record.lastSend ==>
                  o.err == ERR_OK && o.ack.isMaster && o.ack.allowed && t.record.lastSend == o.ack.time)
            && (t.record.isAlive && !s.record.isAlive ==> t.record.lastSend > s.record.lastSend)
  {}

  /** The ping result is one for the current leader that is allowed and newer than the last acknowledged beacon. */
  predicate Applies(s: Slave, o: PingOutcome)
    requires s.leader < |s.members|
  {
    o.ack.thisNode == s.members[s.leader] && o.ack.allowed && o.ack.time > s.record.lastSend
  }

  lemma {:induction false} IndexOfMember(members: seq<nat>, i: nat)
    requires i < |members| && forall j, k :: 0 <= j < k < |members| ==> members[j] != members[k]
    ensures IndexOf(members, members[i]) == i
  {
    if i > 0 {
      IndexOfMember(members[1..], i - 1);
    }
  }

  lemma RoundTheGroup(n: nat, i: nat)
    requires i < n
    ensures (i + 1) % n == if i + 1 < n then i + 1 else 0
  {}

  /** Whom the slave turns to: it stays with a master, goes to the primary that a non-master names, and otherwise, also
      when the beacon failed, to the next member of the group in turn. */
  lemma LeaderAfterPing(tm: Timing, s: Slave, o: PingOutcome)
    requires s.Valid()
    ensures var t := EndPingOnSlave(tm, s, o);
            if !Applies(s, o) || (o.err == ERR_OK && o.ack.isMaster) then t.members == s.members && t.leader == s.leader
            else if o.err == ERR_OK && o.ack.primaryNode != 0 then
              t.leader < |t.members| && t.members[t.leader] == o.ack.primaryNode
            else t.members == s.members && t.leader == (s.leader + 1) % |s.members|
  {
    RoundTheGroup(|s.members|, s.leader);
    IndexOfMember(s.members, (s.leader + 1) % |s.members|);
  }

  ghost function RunSlave(tm: Timing, s: Slave, outcomes: seq<PingOutcome>): (t: Slave)
    requires s.Valid()
    ensures t.Valid()
  {
    if outcomes == [] then s
    else
      var k := |outcomes| - 1;
      var mid := RunSlave(tm, s, outcomes[..k]);
      StepKeepsSlave(tm, mid, outcomes[k]);
      EndPingOnSlave(tm, mid, outcomes[k])
  }

  /** After every sequence of ping results there is one record, it belongs to the leader, the known meta
      servers only grow, and the last acknowledged send time never goes back, not even across switches. */
  lemma {:induction false} RunKeepsSlave(tm: Timing, s: Slave, outcomes: seq<PingOutcome>)
    requires s.Valid()
    ensures var t := RunSlave(tm, s, outcomes);
            && t.record.node == t.members[t.leader] && s.members <= t.members
            && t.record.lastSend >= s.record.lastSend
            && (t.record.lastSend > s.record.lastSend ==>
                  exists i :: 0 <= i < |outcomes| && outcomes[i].err == ERR_OK
                              && outcomes[i].ack.isMaster && outcomes[i].ack.time == t.record.lastSend)
  {
    if outcomes != [] {
      var k := |outcomes| - 1;
      RunKeepsSlave(tm, s, outcomes[..k]);
      StepKeepsSlave(tm, RunSlave(tm, s, outcomes[..k]), outcomes[k]);
    }
  }

  /** Failed pings in a row, each to the leader of its time. */
  ghost predicate FailInTurn(s: Slave, outcomes: seq<PingOutcome>)
    requires s.leader < |s.members|
  {
    forall i :: 0 <= i < |outcomes| ==>
      FailedPing(outcomes[i], s.members[Turn(s.members, s.leader, i)], s.record.lastSend)
  }

  predicate FailedPing(o: PingOutcome, to: nat, lastSend: nat) {
    o.err != ERR_OK && o.ack.allowed && o.ack.time > lastSend && o.ack.thisNode == to
  }

  /** The member k places on, cyclically. */
  function Turn(members: seq<nat>, leader: nat, k: nat): (i: nat)
    requires leader < |members|
    ensures i < |members|
  {
    if k == 0 then leader
    else if Turn(members, leader, k - 1) + 1 < |members| then Turn(members, leader, k - 1) + 1 else 0
  }

  lemma FailureStep(tm: Timing, s: Slave, o: PingOutcome)
    requires s.Valid() && FailedPing(o, s.members[s.leader], s.record.lastSend)
    ensures var t := EndPingOnSlave(tm, s, o);
            && t.members == s.members && t.leader == Turn(s.members, s.leader, 1)
            && t.record.lastSend == s.record.lastSend && t.record.isAlive == s.record.isAlive
  {
    LeaderAfterPing(tm, s, o);
    RoundTheGroup(|s.members|, s.leader);
  }

  lemma ModIs(a: nat, n: nat, q: nat, r: nat)
    requires n > 0 && r < n && a == n * q + r
    ensures a % n == r
  {
    var d := a / n - q;
    assert n * (a / n) == n * q + n * d;
    assert n * d == r - a % n;
    if d > 0 { MulAtLeast(n, d); } else if d < 0 { MulAtLeast(n, -d); }
  }

  lemma MulAtLeast(n: nat, d: nat)
    requires d > 0
    ensures n * d >= n
  {}

  /** It is the remainder of the sum. */
  lemma {:induction false} TurnIsRemainder(members: seq<nat>, leader: nat, k: nat)
    requires leader < |members|
    ensures Turn(members, leader, k) == (leader + k) % |members|
  {
    var n := |members|;
    if k == 0 {
      ModIs(leader, n, 0, leader);
    } else {
      TurnIsRemainder(members, leader, k - 1);
      var a := leader + (k - 1);
      assert a == n * (a / n) + a % n;
      if a % n + 1 < n {
        ModIs(a + 1, n, a / n, a % n + 1);
      } else {
        assert a + 1 == n * (a / n + 1) + 0;
        ModIs(a + 1, n, a / n + 1, 0);
      }
    }
  }

  /** They pass the group round: after k of them the leader is k members on. */
  lemma {:induction false} FailuresGoRound(tm: Timing, s: Slave, outcomes: seq<PingOutcome>)
    requires s.Valid() && FailInTurn(s, outcomes)
    ensures var t := RunSlave(tm, s, outcomes);
            && t.members == s.members && t.leader == Turn(s.members, s.leader, |outcomes|)
            && t.record.lastSend == s.record.lastSend && t.record.isAlive == s.record.isAlive
  {
    if outcomes != [] {
      var k := |outcomes| - 1;
      FailuresGoRound(tm, s, outcomes[..k]);
      FailureStep(tm, RunSlave(tm, s, outcomes[..k]), outcomes[k]);
    }
  }

  lemma TurnReaches(members: seq<nat>, leader: nat, i: nat) returns (k: nat)
    requires leader < |members| && i < |members|
    ensures k < |members| && Turn(members, leader, k) == i
  {
    k := if i >= leader then i - leader else i + |members| - leader;
    TurnIsRemainder(members, leader, k);
    ModIs(leader + k, |members|, if i >= leader then 0 else 1, i);
  }

  /** After k failures in a row the leader is the member at (leader + k) modulo the size of the group. */
  lemma LeaderAfterFailures(tm: Timing, s: Slave, outcomes: seq<PingOutcome>)
    requires s.Valid() && FailInTurn(s, outcomes)
    ensures RunSlave(tm, s, outcomes).leader == (s.leader + |outcomes|) % |s.members|
  {
    FailuresGoRound(tm, s, outcomes);
    TurnIsRemainder(s.members, s.leader, |outcomes|);
  }

  /** Within one round of failures every member gets its turn. */
  lemma EveryMemberGetsItsTurn(tm: Timing, s: Slave, outcomes: seq<PingOutcome>, i: nat) returns (k: nat)
    requires s.Valid() && FailInTurn(s, outcomes) && i < |s.members| <= |outcomes| + 1
    ensures k <= |outcomes| && RunSlave(tm, s, outcomes[..k]).leader == i
  {
    k := TurnReaches(s.members, s.leader, i);
    FailuresGoRound(tm, s, outcomes[..k]);
  }

  /** The object: a detector whose master map holds exactly the leader's record. */
  class SlaveFailureDetector {
    const detector: Detector
    var members: seq<nat>
    var leader: nat

    ghost predicate Valid()
      reads this, detector
    {
      && leader < |members|
      && detector.masters.Keys == {members[leader]}
      && State().Valid()
    }

    ghost function State(): Slave
      requires leader < |members| && members[leader] in detector.masters
      reads this, detector
    {
      Slave(members, leader, detector.masters[members[leader]])
    }

    constructor (timing: Timing, metaServers: seq<nat>, first: nat, now: nat)
      requires first < |metaServers| && forall i :: 0 <= i < |metaServers| ==> metaServers[i] != 0
      requires forall i, j :: 0 <= i < j < |metaServers| ==> metaServers[i] != metaServers[j]
      ensures Valid() && fresh(detector) && detector.timing == timing
      ensures State() == Slave(metaServers, first, MasterRecord(metaServers[first], now, false, false))
    {
      detector := new Detector(timing, false);
      members, leader := metaServers, first;
      new;
      detector.RegisterMaster(members[leader], now);
    }

    method SetLeader(a: nat)
      requires a != 0
      modifies `members, `leader
      ensures leader == IndexOf(old(members), a)
      ensures members == if a in old(members) then old(members) else old(members) + [a]
    {
      leader := IndexOf(members, a);
      if leader == |members| {
        members := members + [a];
      }
    }

    /** The group's leader and the master record are moved together. */
    method Follow(to: nat)
      requires Valid() && to != 0
      modifies `members, `leader, detector`masters
      ensures Valid() && State() == Followed(old(State()), to)
    {
      var from := members[leader];
      SetLeader(to);
      var ok := detector.SwitchMaster(from, to);
    }

    /** end_ping; the assert is the source's dassert. */
    method EndPing(err: Error, ack: BeaconAck, now: nat)
      requires Valid()
      modifies this, detector`masters
      ensures Valid()
      ensures State() == EndPingOnSlave(detector.timing, old(State()), PingOutcome(err, ack, now))
      ensures Applies(old(State()), PingOutcome(err, ack, now)) && (err != ERR_OK || !ack.isMaster) ==>
                if err == ERR_OK && ack.primaryNode != 0 then members[leader] == ack.primaryNode
                else members == old(members) && leader == (old(leader) + 1) % |members|
    {
      LeaderAfterPing(detector.timing, State(), PingOutcome(err, ack, now));
      var applicable := detector.EndPingInternal(err, ack, now);
      if !applicable {
        return;
      }
      assert ack.thisNode == members[leader];
      if err != ERR_OK || (!ack.isMaster && ack.primaryNode == 0) {
        var next := NextOf(members, leader);
        if next != ack.thisNode {
          Follow(next);
        }
      } else if !ack.isMaster {
        Follow(ack.primaryNode);
      }
    }
  }
}
