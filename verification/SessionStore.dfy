// The session handlers themselves, updating documents in place and looping over what their queries
// return, each against the function of the same handler.

module SessionStore {
  import opened Options
  import opened Tariffs
  import opened Money
  import opened Sessions

  // How many of the first n sessions a query finds.
  function Found(sessions: seq<Session>, which: Session -> bool, n: nat): nat
    requires n <= |sessions|
  {
    if n == 0 then 0 else Found(sessions, which, n - 1) + if which(sessions[n - 1]) then 1 else 0
  }

  class Store {
    var sessions: seq<Session>
    var plugs: seq<Plug>
    var chargers: seq<Charger>
    var tariffs: seq<Tariff>
    var nextTransactionId: nat

    function Snapshot(): World
      reads this
    {
      World(sessions, plugs, chargers, tariffs, nextTransactionId)
    }

    constructor (plugs: seq<Plug>, chargers: seq<Charger>)
      ensures Snapshot() == World([], plugs, chargers, [], 1000)
    {
      sessions, tariffs, nextTransactionId := [], [], 1000;
      this.plugs, this.chargers := plugs, chargers;
    }

    // registry.ts: monotonic ids, and a seed that only ever moves them up.
    method AllocateTransactionId() returns (id: nat)
      modifies this`nextTransactionId
      ensures nextTransactionId == old(nextTransactionId) + 1 == id
    {
      nextTransactionId := nextTransactionId + 1;
      id := nextTransactionId;
    }

    method SeedTransactionId(highestIssued: nat)
      modifies this`nextTransactionId
      ensures nextTransactionId >= old(nextTransactionId) && nextTransactionId >= highestIssued
      ensures nextTransactionId == old(nextTransactionId) || nextTransactionId == highestIssued
    {
      if highestIssued > nextTransactionId {
        nextTransactionId := highestIssued;
      }
    }

    // document.save(), with the pricing hook in front of it.
    method Save(i: Id, document: Session)
      requires i < |sessions|
      modifies this`sessions
      ensures sessions == old(sessions)[i := ComputeAmount(document)]
    {
      var saved := document;
      if (document.status == Completed || document.status == Failed) && document.amount.None? && document.rate.Some? {
        saved := saved.(amount := Some(CalculateAmountPaise(document.energyWh, document.rate.value)));
        if saved.amount.value == 0 {
          saved := saved.(paid := true);
        }
      }
      sessions := sessions[i := saved];
    }

    // The next id; or, where the unique index refuses the save that carries it, one past the highest issued.
    method IssueTransactionId() returns (id: nat)
      modifies this`nextTransactionId
      ensures nextTransactionId == id == AllocateFor(sessions, old(nextTransactionId))
    {
      id := AllocateTransactionId();
      if TransactionTaken(sessions, id) {
        var highest := HighestTransactionId(sessions);
        SeedTransactionId(highest);
        id := AllocateTransactionId();
      }
    }

    method OnStartTransaction(charger: Id, idTag: string, meterStart: real, at: int)
      returns (reply: nat, accepted: bool)
      modifies this`sessions, this`nextTransactionId
      ensures Snapshot() == StartTransaction(old(Snapshot()), charger, idTag, meterStart, at)
      ensures accepted <==> StartAccepted(old(Snapshot()), charger, idTag)
      ensures accepted ==>
                var tagged := FindTag(old(sessions), idTag);
                && tagged.value < |sessions| && sessions[tagged.value].status == Active
                && sessions[tagged.value].transactionId == Some(reply)
      ensures !accepted ==> reply == nextTransactionId == old(nextTransactionId) + 1
    {
      var found := FindTag(sessions, idTag);
      if found.None? {
        reply := AllocateTransactionId();
        return reply, false;
      }
      var i := found.value;
      var session := sessions[i];
      if session.status == Active && session.transactionId.Some? {
        return session.transactionId.value, true;
      }
      if session.status != Initiating || session.charger != charger {
        reply := AllocateTransactionId();
        return reply, false;
      }
      reply := IssueTransactionId();
      Save(i, session.(transactionId := Some(reply), status := Active, startedAt := Some(at),
                       startWh := Some(meterStart), lastWh := Some(meterStart)));
      accepted := true;
    }

    method OnMeterValues(transactionId: nat, energyWh: real, at: int) returns (stored: bool)
      modifies this`sessions
      ensures Snapshot() == MeterValues(old(Snapshot()), transactionId, energyWh, at)
      ensures stored <==> Snapshot() != old(Snapshot())
    {
      if energyWh < 0.0 {
        KeepsItself(sessions, transactionId);
        return false;
      }
      var found := FindOpenTransaction(sessions, transactionId);
      if found.None? {
        return false;
      }
      var i := found.value;
      var session := sessions[i];
      var previous := if session.lastWh.Some? then session.lastWh.value
                      else if session.startWh.Some? then session.startWh.value else 0.0;
      if energyWh <= previous || exists k :: 0 <= k < |session.readings| && session.readings[k].at == at {
        KeepsItself(sessions, transactionId);
        return false;
      }
      session := session.(readings := session.readings + [Reading(at, energyWh)]);
      session := session.(lastWh := Some(energyWh), energyWh := ConsumedWh(session.startWh, Some(energyWh)));
      Save(i, session);
      stored := true;
    }

    method OnStopTransaction(transactionId: nat, meterStop: real, at: int) returns (ended: bool)
      modifies this`sessions
      ensures Snapshot() == StopTransaction(old(Snapshot()), transactionId, meterStop, at)
      ensures ended <==> FindOpenTransaction(old(sessions), transactionId).Some?
    {
      var found := FindOpenTransaction(sessions, transactionId);
      if found.None? {
        return false;
      }
      var session := sessions[found.value];
      var reason := if session.status == Stopping then Remote else Local;
      Save(found.value, session.(
        status := Completed, endedAt := Some(at), endWh := Some(meterStop), lastWh := Some(meterStop),
        energyWh := ConsumedWh(session.startWh, Some(meterStop)), stopReason := Some(reason)));
      ended := true;
    }

    // failSessions: every open session its caller's query selects, one save each.
    // One session fails at its last value and its last sign of charging.
    method Fail(i: Id, reason: StopReason, now: int)
      requires i < |sessions|
      modifies this`sessions
      ensures sessions == old(sessions)[i := FailSession(old(sessions)[i], reason, now)]
    {
      var session := sessions[i];
      Save(i, session.(
        status := Failed, endedAt := Some(LastEvidence(session, now)), endWh := session.lastWh,
        energyWh := ConsumedWh(session.startWh, session.lastWh), stopReason := Some(reason)));
    }

    method FailSessions(which: Session -> bool, reason: StopReason, now: int) returns (failed: nat)
      modifies this`sessions
      ensures sessions == EndAll(old(sessions), which, Failing(reason, now))
      ensures failed == Found(old(sessions), which, |old(sessions)|)
    {
      failed := 0;
      for i := 0 to |sessions|
        invariant failed == Found(old(sessions), which, i)
        invariant |sessions| == |old(sessions)|
        invariant forall k :: 0 <= k < i ==>
                    sessions[k] == if which(old(sessions)[k]) then FailSession(old(sessions)[k], reason, now)
                                   else old(sessions)[k]
        invariant forall k :: i <= k < |sessions| ==> sessions[k] == old(sessions)[k]
      {
        if which(sessions[i]) {
          Fail(i, reason, now);
          failed := failed + 1;
        }
      }
    }

    method FailOpenSessionsForConnector(connector: Id, reason: StopReason, now: int) returns (failed: nat)
      modifies this`sessions
      ensures Snapshot() == FailOnConnector(old(Snapshot()), connector, reason, now)
      ensures failed == Found(old(sessions), OnConnector(connector), |old(sessions)|)
    {
      failed := FailSessions(OnConnector(connector), reason, now);
    }

    method FailOpenSessionsForCharger(charger: Id, reason: StopReason, now: int) returns (failed: nat)
      modifies this`sessions, this`plugs
      ensures Snapshot() == FailOnCharger(old(Snapshot()), charger, reason, now)
      ensures failed == Found(old(sessions), OnCharger(charger), |old(sessions)|)
    {
      failed := FailSessions(OnCharger(charger), reason, now);
      plugs := ReleasePlugs(plugs, charger);
    }

    // One start that was never confirmed is over.
    method TimeOut(i: Id, now: int)
      requires i < |sessions| && sessions[i].status == Initiating
      modifies this`sessions
      ensures sessions == old(sessions)[i := TimingOut(now)(old(sessions)[i])]
    {
      Save(i, sessions[i].(status := Failed, endedAt := Some(now), stopReason := Some(StartTimeout)));
    }

    method SweepUnconfirmedSessions(timeout: int, now: int) returns (failed: nat)
      modifies this`sessions
      ensures Snapshot() == SweepUnconfirmed(old(Snapshot()), timeout, now)
      ensures failed == Found(old(sessions), Unconfirmed(now - timeout), |old(sessions)|)
    {
      failed := 0;
      ghost var stale, end := Unconfirmed(now - timeout), TimingOut(now);
      for i := 0 to |sessions|
        invariant failed == Found(old(sessions), stale, i)
        invariant |sessions| == |old(sessions)|
        invariant forall k :: 0 <= k < i ==>
                    sessions[k] == if stale(old(sessions)[k]) then end(old(sessions)[k]) else old(sessions)[k]
        invariant forall k :: i <= k < |sessions| ==> sessions[k] == old(sessions)[k]
      {
        var late := sessions[i].status == Initiating && sessions[i].requestedAt < now - timeout;
        assert late == stale(old(sessions)[i]);
        if late {
          TimeOut(i, now);
          failed := failed + 1;
        }
      }
    }

    method HandleStatusNotification(charger: Id, number: int, status: PlugStatus, now: int)
      modifies this`sessions, this`plugs
      ensures Snapshot() == PlugStatusChanged(old(Snapshot()), charger, number, status, now)
    {
      var found := FindPlug(plugs, charger, number);
      if found.None? {
        return;
      }
      var previous := plugs[found.value];
      plugs := plugs[found.value := previous.(status := status)];
      if status == Faulted && previous.status != Faulted {
        var _ := FailOpenSessionsForConnector(found.value, HardwareFault, now);
      }
    }

    method HandleChargePointStatus(charger: Id, reported: Option<Hardware>, now: int)
      requires charger < |chargers|
      modifies this`sessions, this`plugs, this`chargers
      ensures Snapshot() == ChargePointStatus(old(Snapshot()), charger, reported, now)
    {
      if reported.None? || chargers[charger].hardware == reported.value {
        return;
      }
      var isFault := reported.value != Operative;
      chargers := chargers[charger := chargers[charger].(
        hardware := reported.value, faultReportedAt := if isFault then Some(now) else None)];
      if reported.value == HardwareFaulted {
        var _ := FailOpenSessionsForCharger(charger, HardwareFault, now);
      }
    }

    // Up to the await: the row is inserted before any command goes out.
    method RequestStart(user: Id, connector: Id, idTag: string, facts: Facts, now: int) returns (created: bool)
      modifies this`sessions
      ensures Snapshot() == StartSession(old(Snapshot()), user, connector, idTag, facts, now)
      ensures created <==> |sessions| == |old(sessions)| + 1
    {
      if ChargingAlready(sessions, user) || connector >= |plugs| || plugs[connector].charger >= |chargers| {
        return false;
      }
      var plug := plugs[connector];
      var charger := chargers[plug.charger];
      if !Startable(plug.status, facts.inService, facts.online, charger.hardware) || !facts.connected {
        return false;
      }
      var price := PriceInForce(tariffs, charger.company);
      if price.None? || facts.inArrears {
        return false;
      }
      if Reserved(sessions, connector) || FindTag(sessions, idTag).Some? {
        return false;
      }
      sessions := sessions +
        [Session(user, charger.company, plug.charger, connector, idTag, Initiating, None, now, None, None,
                 None, None, None, 0.0, price, None, false, None, [])];
      created := true;
    }

    method RequestStop(session: Id, connected: bool, accepted: bool, now: int)
      requires session < |sessions|
      modifies this`sessions
      ensures Snapshot() == StopSession(old(Snapshot()), session, connected, accepted, now)
    {
      var document := sessions[session];
      if document.status == Initiating {
        TimeOut(session, now);
      } else if document.status == Active {
        if !connected {
          Fail(session, ChargerDisconnected, now);
        } else if document.transactionId.Some? && accepted {
          Save(session, document.(status := Stopping));
        }
      }
    }
  }

  // Writing back what was found changes nothing.
  lemma KeepsItself(sessions: seq<Session>, transactionId: nat)
    ensures var found := FindOpenTransaction(sessions, transactionId);
            found.Some? ==> sessions[found.value := sessions[found.value]] == sessions
  {
  }
}
