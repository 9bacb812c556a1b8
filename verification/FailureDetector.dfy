/** The lease/grace failure detector of src/failure_detector: the records, the handlers as functions of
    the records, and the object that holds the record maps. Addresses are numbers, 0 is the invalid one. */
module FailureDetector {

  const UINT32 := 0x1_0000_0000

  /** The timing constants, in milliseconds. */
  datatype Timing = Timing(checkInterval: nat, beaconInterval: nat, beaconTimeout: nat, lease: nat, grace: nat)

  /** start(): seconds become milliseconds in 32-bit arithmetic, and a beacon times out after two thirds of
      the beacon interval. */
  function Start(checkSeconds: nat, beaconSeconds: nat, leaseSeconds: nat, graceSeconds: nat): Timing {
    var beacon := beaconSeconds * 1000 % UINT32;
    Timing(checkSeconds * 1000 % UINT32, beacon, beacon * 2 % UINT32 / 3,
           leaseSeconds * 1000 % UINT32, graceSeconds * 1000 % UINT32)
  }

  /** What a worker remembers about a master. */
  datatype MasterRecord = MasterRecord(node: nat, lastSend: nat, isAlive: bool, rejected: bool)

  /** What a master remembers about a worker. */
  datatype WorkerRecord = WorkerRecord(node: nat, lastRecv: nat, isAlive: bool)

  datatype BeaconAck = BeaconAck(time: nat, thisNode: nat, primaryNode: nat, isMaster: bool, allowed: bool)

  datatype Error = ERR_OK | ERR_TIMEOUT

  /** A master is given up when its lease would run out before the next check. */
  predicate MasterExpires(tm: Timing, r: MasterRecord, now: nat) {
    r.isAlive && now > r.lastSend && now + tm.checkInterval - r.lastSend > tm.lease
  }

  function CheckMaster(tm: Timing, r: MasterRecord, now: nat): MasterRecord {
    if MasterExpires(tm, r, now) then r.(isAlive := false) else r
  }

  predicate WorkerExpires(tm: Timing, r: WorkerRecord, now: nat) {
    r.isAlive && now > r.lastRecv && now - r.lastRecv > tm.grace
  }

  function CheckWorker(tm: Timing, r: WorkerRecord, now: nat): WorkerRecord {
    if WorkerExpires(tm, r, now) then r.(isAlive := false) else r
  }

  /** on_ping_internal for the record of the beacon's sender, if there is one: the new record, and whether
      the sender is allowed. */
  datatype PingResult = Rejected | Recorded(record: WorkerRecord)

  function Ping(known: bool, r: WorkerRecord, allowed: bool, from: nat, now: nat): PingResult {
    if !known then (if allowed then Recorded(WorkerRecord(from, now, true)) else Rejected)
    else if now > r.lastRecv then Recorded(r.(lastRecv := now, isAlive := true))
    else Recorded(r)
  }

  /** end_ping_internal for the record of ack.thisNode: the new record, and whether the ack is applicable. */
  function EndPing(tm: Timing, r: MasterRecord, err: Error, ack: BeaconAck, now: nat): (MasterRecord, bool) {
    if !ack.allowed then (r.(rejected := true), false)
    else if ack.time <= r.lastSend then (r, false)
    else if err != ERR_OK || !ack.isMaster then (r, true)
    else
      var alive := r.isAlive || (now > ack.time && now - ack.time <= tm.lease);
      (r.(lastSend := ack.time, rejected := false, isAlive := alive), true)
  }

  class Detector {
    const timing: Timing
    const useAllowList: bool
    var allowList: set<nat>
    var masters: map<nat, MasterRecord>
    var workers: map<nat, WorkerRecord>

    constructor (timing: Timing, useAllowList: bool)
      ensures this.timing == timing && this.useAllowList == useAllowList
      ensures allowList == {} && masters == map[] && workers == map[]
    {
      this.timing, this.useAllowList := timing, useAllowList;
      allowList, masters, workers := {}, map[], map[];
    }

    method RegisterMaster(target: nat, now: nat)
      modifies `masters
      ensures masters == old(masters)[target := if target in old(masters) then old(masters)[target].(rejected := false)
                                               else MasterRecord(target, now, false, false)]
    {
      if target !in masters {
        masters := masters[target := MasterRecord(target, now, false, false)];
      } else if masters[target].rejected {
        masters := masters[target := masters[target].(rejected := false)];
      }
    }

    /** Moves the record of `from` to the key `to`, unless that would lose a record. */
    method SwitchMaster(from: nat, to: nat) returns (ok: bool)
      modifies `masters
      ensures ok <==> from in old(masters) && to !in old(masters)
      ensures ok ==> masters == (old(masters) - {from})[to := old(masters)[from].(node := to, rejected := false)]
      ensures !ok ==> masters == old(masters)
    {
      if from !in masters || to in masters {
        return false;
      }
      masters := masters[to := masters[from].(node := to, rejected := false)] - {from};
      ok := true;
    }

    /** The two loops of check_all_records, each under the lock with its own reading of the clock. */
    method CheckAllRecords(now: nat, later: nat) returns (lostMasters: set<nat>, lostWorkers: set<nat>)
      modifies `masters, `workers
      ensures masters.Keys == old(masters).Keys && workers.Keys == old(workers).Keys
      ensures forall a :: a in masters ==> masters[a] == CheckMaster(timing, old(masters)[a], now)
      ensures forall a :: a in workers ==> workers[a] == CheckWorker(timing, old(workers)[a], later)
      ensures forall a :: a in lostMasters <==> a in old(masters) && MasterExpires(timing, old(masters)[a], now)
      ensures forall a :: a in lostWorkers <==> a in old(workers) && WorkerExpires(timing, old(workers)[a], later)
    {
      lostMasters, lostWorkers := {}, {};
      var todo := masters.Keys;
      while todo != {}
        modifies `masters
        invariant todo <= masters.Keys == old(masters).Keys && workers == old(workers)
        invariant forall a :: a in todo ==> masters[a] == old(masters)[a]
        invariant forall a :: a in masters && a !in todo ==> masters[a] == CheckMaster(timing, old(masters)[a], now)
        invariant forall a :: a in lostMasters <==>
                    a in masters && a !in todo && MasterExpires(timing, old(masters)[a], now)
        decreases todo
      {
        var a :| a in todo;
        if MasterExpires(timing, masters[a], now) {
          lostMasters := lostMasters + {a};
          masters := masters[a := masters[a].(isAlive := false)];
        }
        todo := todo - {a};
      }
      todo := workers.Keys;
      while todo != {}
        modifies `workers
        invariant todo <= workers.Keys == old(workers).Keys
        invariant forall a :: a in todo ==> workers[a] == old(workers)[a]
        invariant forall a :: a in workers && a !in todo ==> workers[a] == CheckWorker(timing, old(workers)[a], later)
        invariant forall a :: a in lostWorkers <==>
                    a in workers && a !in todo && WorkerExpires(timing, old(workers)[a], later)
        decreases todo
      {
        var a :| a in todo;
        if WorkerExpires(timing, workers[a], later) {
          lostWorkers := lostWorkers + {a};
          workers := workers[a := workers[a].(isAlive := false)];
        }
        todo := todo - {a};
      }
    }

    method OnPing(from: nat, to: nat, time: nat, self: nat, now: nat) returns (ack: BeaconAck)
      modifies `workers
      ensures var known := from in old(workers);
              var r := Ping(known, if known then old(workers)[from] else WorkerRecord(from, now, true),
                            !useAllowList || from in allowList, from, now);
              && ack == BeaconAck(time, to, self, true, r.Recorded?)
              && workers == if r.Recorded? then old(workers)[from := r.record] else old(workers)
    {
      ack := BeaconAck(time, to, self, true, true);
      if from !in workers {
        if useAllowList && from !in allowList {
          return ack.(allowed := false);
        }
        workers := workers[from := WorkerRecord(from, now, true)];
      } else if now > workers[from].lastRecv {
        workers := workers[from := workers[from].(lastRecv := now)];
        if !workers[from].isAlive {
          workers := workers[from := workers[from].(isAlive := true)];
        }
      }
    }

    method EndPingInternal(err: Error, ack: BeaconAck, now: nat) returns (applicable: bool)
      modifies `masters
      ensures ack.thisNode !in old(masters) ==> !applicable && masters == old(masters)
      ensures ack.thisNode in old(masters) ==>
                var r := EndPing(timing, old(masters)[ack.thisNode], err, ack, now);
                masters == old(masters)[ack.thisNode := r.0] && applicable == r.1
    {
      if ack.thisNode !in masters {
        return false;
      }
      var r := masters[ack.thisNode];
      if !ack.allowed {
        masters := masters[ack.thisNode := r.(rejected := true)];
        return false;
      }
      if ack.time <= r.lastSend {
        return false;
      }
      if err != ERR_OK {
        return true;
      }
      if !ack.isMaster {
        return true;
      }
      r := r.(lastSend := ack.time, rejected := false);
      if !r.isAlive && now > r.lastSend && now - r.lastSend <= timing.lease {
        r := r.(isAlive := true);
      }
      masters := masters[ack.thisNode := r];
      applicable := true;
    }
  }
}
