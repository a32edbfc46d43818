// The session guarantees a reader wants, for every run, read off the invariant.

module SessionGuarantees {
  import opened Options
  import opened Money
  import opened Tariffs
  import opened Sessions
  import opened SessionRuns

  // Sessions only move forward, an ended one is never changed by a session event, and open sessions stay
  // one to a connector and one to a driver, with transaction ids never shared.
  lemma Lifecycle(w: World, events: seq<Event>, e: Event)
    requires Fresh(w)
    ensures var before := Run(w, events).sessions; var after := Run(w, events + [e]).sessions;
            && |before| <= |after| <= |before| + 1
            && (forall i :: 0 <= i < |before| ==>
                  Moves(before[i].status, after[i].status) && (Ended(before[i]) ==> after[i] == before[i]))
            && (|after| > |before| ==> after[|before|].status == Initiating)
            && (forall i :: 0 <= i < |after| && Open(after[i]) ==>
                  (after[i].status == Initiating <==> after[i].transactionId.None?))
            && (forall i, j :: 0 <= i < j < |after| ==>
                  && (Open(after[i]) && Open(after[j]) ==>
                        after[i].connector != after[j].connector && after[i].user != after[j].user)
                  && (after[i].transactionId.Some? ==> after[i].transactionId != after[j].transactionId))
  {
    var now := Run(w, events);
    RunSound(w, events);
    assert (events + [e])[..|events|] == events;
    NextSound(now, e);
    AtMostOneNew(now, e);
    var after := Next(now, e).sessions;
    forall i | 0 <= i < |now.sessions|
      ensures Moves(now.sessions[i].status, after[i].status) && (Ended(now.sessions[i]) ==> after[i] == now.sessions[i])
    {
      assert Evolves(now.sessions[i], after[i]);
    }
    forall i | 0 <= i < |after| && Open(after[i])
      ensures after[i].status == Initiating <==> after[i].transactionId.None?
    {
      assert SessionSound(after[i]);
    }
  }

  // A session is only ever added by a start, with the price then in force copied onto it.
  lemma AtMostOneNew(w: World, e: Event)
    ensures |w.sessions| <= |Next(w, e).sessions| <= |w.sessions| + 1
    ensures |Next(w, e).sessions| > |w.sessions| ==>
              && e.Start? && Next(w, e).sessions[|w.sessions|].status == Initiating
              && Next(w, e).sessions[|w.sessions|].rate.Some?
              && Next(w, e).sessions[|w.sessions|].rate
                 == PriceInForce(w.tariffs, Next(w, e).sessions[|w.sessions|].company)
  {
  }

  // The k-th event created the i-th session.
  predicate CreatedBy(w: World, events: seq<Event>, k: nat, i: nat)
    requires k < |events|
  {
    events[k].Start? && |Run(w, events[..k]).sessions| == i && |Run(w, events[..k + 1]).sessions| == i + 1
  }

  // Every session was created by a start, at the price its company had in force at that moment;
  // and no event since has changed that rate.
  lemma {:induction false} RateIsPriceAtCreation(w: World, events: seq<Event>, i: nat) returns (k: nat)
    requires Fresh(w) && i < |Run(w, events).sessions|
    ensures k < |events| && CreatedBy(w, events, k, i)
    ensures var s := Run(w, events).sessions[i];
            s.rate.Some? && s.rate == PriceInForce(Run(w, events[..k]).tariffs, s.company)
  {
    var n := |events| - 1;
    var now := Run(w, events[..n]);
    RunSound(w, events[..n]);
    NextSound(now, events[n]);
    AtMostOneNew(now, events[n]);
    assert events[..n + 1] == events;
    if i < |now.sessions| {
      k := RateIsPriceAtCreation(w, events[..n], i);
      assert events[..n][..k] == events[..k] && events[..n][..k + 1] == events[..k + 1];
      assert Evolves(now.sessions[i], Run(w, events).sessions[i]);
    } else {
      k := n;
    }
  }

  // From meter to money: an open session owes nothing yet; an ended one is billed
  // round(energy x rate / 1000), its energy the clamped difference of its closing and starting
  // values, and nothing if it never started.
  lemma MeterToMoney(w: World, events: seq<Event>, i: nat)
    requires Fresh(w) && i < |Run(w, events).sessions|
    ensures var s := Run(w, events).sessions[i];
            && (Open(s) ==> s.amount.None? && !s.paid)
            && (Ended(s) ==>
                  && s.rate.Some? && s.amount == Some(CalculateAmountPaise(s.energyWh, s.rate.value))
                  && s.energyWh >= 0.0
                  && (s.startWh.None? ==> s.energyWh == 0.0 && s.amount == Some(0) && s.status == Failed)
                  && (s.startWh.Some? ==>
                        && s.endWh.Some?
                        && (s.endWh.value <= s.startWh.value ==> s.energyWh == 0.0)
                        && (s.endWh.value >= s.startWh.value ==>
                              -0.005 <= s.endWh.value - s.startWh.value - s.energyWh < 0.005))
                  && (s.paid <==> s.amount == Some(0)))
  {
    RunSound(w, events);
    assert SessionSound(Run(w, events).sessions[i]);
  }

  // No later session event changes an ended session: not its bill, not its energy, not anything. Only
  // settlement writes to it afterwards, that it is paid.
  lemma {:induction false} BillIsFinal(w: World, events: seq<Event>, more: seq<Event>, i: nat)
    requires Fresh(w) && i < |Run(w, events).sessions| && Ended(Run(w, events).sessions[i])
    ensures i < |Run(w, events + more).sessions| && Run(w, events + more).sessions[i] == Run(w, events).sessions[i]
  {
    if more == [] {
      assert events + more == events;
    } else {
      var n := |more| - 1;
      BillIsFinal(w, events, more[..n], i);
      assert (events + more)[..|events + more| - 1] == events + more[..n];
      RunSound(w, events + more[..n]);
      NextSound(Run(w, events + more[..n]), more[n]);
      assert Evolves(Run(w, events + more[..n]).sessions[i], Run(w, events + more).sessions[i]);
    }
  }

  // The meter of an open session: readings rise with distinct timestamps, the last value is the
  // largest of the starting value and every reading, and the energy so far is their difference.
  lemma Metering(w: World, events: seq<Event>, i: nat)
    requires Fresh(w) && i < |Run(w, events).sessions|
    requires Open(Run(w, events).sessions[i]) && Run(w, events).sessions[i].startWh.Some?
    ensures var s := Run(w, events).sessions[i];
            && (forall j, k :: 0 <= j < k < |s.readings| ==>
                  s.readings[j].energyWh < s.readings[k].energyWh && s.readings[j].at != s.readings[k].at)
            && s.lastWh.Some? && s.lastWh.value >= s.startWh.value
            && (forall k :: 0 <= k < |s.readings| ==> s.readings[k].energyWh <= s.lastWh.value)
            && (s.lastWh == s.startWh || exists k :: 0 <= k < |s.readings| && s.readings[k].energyWh == s.lastWh.value)
            && -0.005 <= s.lastWh.value - s.startWh.value - s.energyWh < 0.005
  {
    RunSound(w, events);
    assert SessionSound(Run(w, events).sessions[i]);
  }

  // A charger's buffered messages for one transaction, none above what is already stored.
  ghost predicate Backlog(messages: seq<Event>, transactionId: nat, lastWh: real) {
    forall k :: 0 <= k < |messages| ==>
      messages[k].Meter? && messages[k].transactionId == transactionId && messages[k].energyWh <= lastWh
  }

  // Replaying any backlog of stored or older readings changes nothing at all.
  lemma {:induction false} ReplayChangesNothing(w: World, i: nat, messages: seq<Event>)
    requires WorldSound(w) && i < |w.sessions| && w.sessions[i].status != Initiating && Open(w.sessions[i])
    requires SessionSound(w.sessions[i])
             && Backlog(messages, w.sessions[i].transactionId.value, w.sessions[i].lastWh.value)
    ensures Run(w, messages) == w
  {
    if messages != [] {
      var n := |messages| - 1;
      ReplayChangesNothing(w, i, messages[..n]);
      OwnTransaction(w, i);
      assert w.sessions[i := w.sessions[i]] == w.sessions;
    }
  }

  lemma OwnTransaction(w: World, i: nat)
    requires WorldSound(w) && i < |w.sessions| && Open(w.sessions[i]) && w.sessions[i].transactionId.Some?
    ensures FindOpenTransaction(w.sessions, w.sessions[i].transactionId.value) == Some(i)
  {
  }

  // Every stored reading of an open session is no newer than its last value, so a replay of what
  // was stored is such a backlog.
  lemma StoredIsBacklog(w: World, i: nat, messages: seq<Event>)
    requires WorldSound(w) && i < |w.sessions| && w.sessions[i].status != Initiating && Open(w.sessions[i])
    requires SessionSound(w.sessions[i])
    requires forall k :: 0 <= k < |messages| ==>
               messages[k].Meter? && Some(messages[k].transactionId) == w.sessions[i].transactionId
               && Reading(messages[k].at, messages[k].energyWh) in w.sessions[i].readings
    ensures Backlog(messages, w.sessions[i].transactionId.value, w.sessions[i].lastWh.value)
  {
  }

  // A reading for one transaction never touches any other session.
  lemma ReadingsReachTheirOwnSession(w: World, i: nat, energyWh: real, at: int)
    requires WorldSound(w) && i < |w.sessions| && Open(w.sessions[i]) && w.sessions[i].transactionId.Some?
    ensures var w' := MeterValues(w, w.sessions[i].transactionId.value, energyWh, at);
            && w' == w.(sessions := w.sessions[i := StoreReading(w.sessions[i], energyWh, at)])
  {
  }

  // A fault of the whole machine leaves it no open session and no plug in flight, and touches no
  // other charger.
  lemma MachineFaultScope(w: World, charger: Id, now: int)
    requires charger < |w.chargers| && w.chargers[charger].hardware != HardwareFaulted
    ensures var w' := ChargePointStatus(w, charger, Some(HardwareFaulted), now);
            && |w'.sessions| == |w.sessions| && |w'.plugs| == |w.plugs| && |w'.chargers| == |w.chargers|
            && (forall i :: 0 <= i < |w.sessions| && w.sessions[i].charger == charger ==>
                  !Open(w'.sessions[i]) && (!Open(w.sessions[i]) ==> w'.sessions[i] == w.sessions[i]))
            && (forall p :: 0 <= p < |w.plugs| && w.plugs[p].charger == charger ==> !InFlight(w'.plugs[p].status))
            && (forall i :: 0 <= i < |w.sessions| && w.sessions[i].charger != charger ==>
                  w'.sessions[i] == w.sessions[i])
            && (forall p :: 0 <= p < |w.plugs| && (w.plugs[p].charger != charger || !InFlight(w.plugs[p].status)) ==>
                  w'.plugs[p] == w.plugs[p])
            && (forall c :: 0 <= c < |w.chargers| && c != charger ==> w'.chargers[c] == w.chargers[c])
  {
  }

  // A fresh fault of one plug ends that plug's session and no other; a repeated one ends nothing.
  lemma PlugFaultScope(w: World, charger: Id, number: int, now: int)
    requires FindPlug(w.plugs, charger, number).Some?
    ensures var c := FindPlug(w.plugs, charger, number).value;
            var w' := PlugStatusChanged(w, charger, number, Faulted, now);
            && |w'.sessions| == |w.sessions|
            && (forall i :: 0 <= i < |w.sessions| && (w.sessions[i].connector != c || !Open(w.sessions[i])) ==>
                  w'.sessions[i] == w.sessions[i])
            && (w.plugs[c].status != Faulted ==>
                  forall i :: 0 <= i < |w.sessions| && w.sessions[i].connector == c ==> !Open(w'.sessions[i]))
            && (w.plugs[c].status == Faulted ==> w'.sessions == w.sessions)
            && w'.plugs == w.plugs[c := w.plugs[c].(status := Faulted)] && w'.chargers == w.chargers
  {
  }

  // A sweep ends exactly the starts that were never confirmed in time, free of charge.
  lemma TimeoutScope(w: World, timeout: int, now: int)
    requires WorldSound(w)
    ensures var w' := SweepUnconfirmed(w, timeout, now);
            forall i :: 0 <= i < |w.sessions| ==>
              if w.sessions[i].status == Initiating && w.sessions[i].requestedAt < now - timeout
              then w'.sessions[i].status == Failed && w'.sessions[i].amount == Some(0) && w'.sessions[i].paid
              else w'.sessions[i] == w.sessions[i]
  {
  }
}
