// What each session event does, field by field, and exactly when: every handler from the outside.

module Transitions {
  import opened Options
  import opened Money
  import opened Tariffs
  import opened Sessions
  import opened SessionRuns

  /* ------------------------------- one session ------------------------------- */

  // Energy is the difference of two values to the nearest hundredth, and nothing when the counter has not
  // risen or never ran.
  predicate Metered(energy: real, start: Option<real>, end: Option<real>) {
    && InHundredths(energy)
    && (start.None? || end.None? || end.value <= start.value ==> energy == 0.0)
    && (start.Some? && end.Some? && end.value >= start.value ==> -0.005 <= end.value - start.value - energy < 0.005)
  }

  // Billed for the energy at the session's own rate, and paid on the spot if that is nothing.
  predicate Billed(s: Session, s': Session) {
    s.rate.Some? && s'.amount == Some(CalculateAmountPaise(s'.energyWh, s.rate.value))
      && (s'.paid <==> s'.amount == Some(0))
  }

  // The charger closed the transaction at this value.
  predicate Completes(s: Session, s': Session, meterStop: real, at: int) {
    && s' == s.(status := Completed, endedAt := Some(at), endWh := Some(meterStop), lastWh := Some(meterStop),
                energyWh := s'.energyWh, amount := s'.amount, paid := s'.paid,
                stopReason := Some(if s.status == Stopping then Remote else Local))
    && s.startWh.Some? && Metered(s'.energyWh, s.startWh, Some(meterStop)) && Billed(s, s')
  }

  // Nobody closed it: it ends at its last value and its last sign of charging.
  predicate Fails(s: Session, s': Session, reason: StopReason, now: int) {
    && s' == s.(status := Failed, endedAt := s'.endedAt, endWh := s.lastWh, energyWh := s'.energyWh,
                amount := s'.amount, paid := s'.paid, stopReason := Some(reason))
    && s'.endedAt.Some? && s'.endedAt.value <= now && LastSign(s, s'.endedAt.value, now)
    && Metered(s'.energyWh, s.startWh, s.lastWh) && Billed(s, s')
  }

  // It never began: it ends now and owes nothing.
  predicate FailsFree(s: Session, s': Session, reason: StopReason, now: int) {
    s' == s.(status := Failed, endedAt := Some(now), stopReason := Some(reason), amount := Some(0), paid := true)
  }

  predicate OnlySession(w: World, w': World, i: nat) {
    i < |w.sessions| && |w'.sessions| == |w.sessions| && w' == w.(sessions := w.sessions[i := w'.sessions[i]])
  }

  lemma FailSessionFails(s: Session, reason: StopReason, now: int)
    requires SessionSound(s) && Open(s)
    ensures Fails(s, FailSession(s, reason, now), reason, now)
  {
  }

  lemma MarkFailedIsFree(s: Session, reason: StopReason, now: int)
    requires SessionSound(s) && s.status == Initiating
    ensures FailsFree(s, MarkFailed(s, reason, now), reason, now)
  {
  }

  lemma TransactionIsItsOwn(w: World, i: nat, transactionId: nat)
    requires WorldSound(w) && i < |w.sessions| && Open(w.sessions[i])
             && w.sessions[i].transactionId == Some(transactionId)
    ensures FindOpenTransaction(w.sessions, transactionId) == Some(i)
  {
  }

  lemma TagIsItsOwn(w: World, i: nat)
    requires WorldSound(w) && i < |w.sessions|
    ensures FindTag(w.sessions, w.sessions[i].idTag) == Some(i)
  {
  }

  /* --------------------------- what the charger says -------------------------- */

  // A stop completes and bills the open session of its transaction, and touches nothing else.
  lemma StopEndsItsSession(w: World, i: nat, transactionId: nat, meterStop: real, at: int)
    requires WorldSound(w) && i < |w.sessions| && Open(w.sessions[i])
             && w.sessions[i].transactionId == Some(transactionId)
    ensures var w' := StopTransaction(w, transactionId, meterStop, at);
            OnlySession(w, w', i) && Completes(w.sessions[i], w'.sessions[i], meterStop, at)
  {
    TransactionIsItsOwn(w, i, transactionId);
    assert SessionSound(w.sessions[i]);
  }

  // A stop or a reading for a transaction that no open session has changes nothing.
  lemma NobodysTransaction(w: World, transactionId: nat, value: real, at: int)
    requires forall i :: 0 <= i < |w.sessions| && Open(w.sessions[i]) ==>
             w.sessions[i].transactionId != Some(transactionId)
    ensures StopTransaction(w, transactionId, value, at) == w && MeterValues(w, transactionId, value, at) == w
  {
  }

  // A reading is stored exactly when it is higher than everything so far and its timestamp is new.
  predicate IsNews(s: Session, energyWh: real, at: int) {
    && energyWh >= 0.0 && (s.lastWh.Some? ==> energyWh > s.lastWh.value)
    && forall k :: 0 <= k < |s.readings| ==> s.readings[k].at != at
  }

  predicate Stores(s: Session, s': Session, energyWh: real, at: int) {
    && s' == s.(readings := s.readings + [Reading(at, energyWh)], lastWh := Some(energyWh), energyWh := s'.energyWh)
    && Metered(s'.energyWh, s.startWh, Some(energyWh))
  }

  lemma ReadingIsStoredExactlyWhen(w: World, i: nat, transactionId: nat, energyWh: real, at: int)
    requires WorldSound(w) && i < |w.sessions| && Open(w.sessions[i])
             && w.sessions[i].transactionId == Some(transactionId)
    ensures var w' := MeterValues(w, transactionId, energyWh, at);
            && OnlySession(w, w', i)
            && if IsNews(w.sessions[i], energyWh, at) then Stores(w.sessions[i], w'.sessions[i], energyWh, at)
               else w' == w
  {
    TransactionIsItsOwn(w, i, transactionId);
    assert SessionSound(w.sessions[i]);
    assert w.sessions[i := w.sessions[i]] == w.sessions;
  }

  // The charger confirms a start: metering begins at its value, under an id nobody has.
  predicate Begins(w: World, w': World, i: nat, meterStart: real, at: int) {
    && i < |w.sessions| && |w'.sessions| == |w.sessions|
    && w' == w.(sessions := w.sessions[i := w'.sessions[i]], nextTransactionId := w'.nextTransactionId)
    && w'.nextTransactionId > w.nextTransactionId
    && (forall j :: 0 <= j < |w.sessions| ==> w.sessions[j].transactionId != Some(w'.nextTransactionId))
    && w'.sessions[i] == w.sessions[i].(status := Active, transactionId := Some(w'.nextTransactionId),
                                        startedAt := Some(at), startWh := Some(meterStart), lastWh := Some(meterStart))
  }

  // A start frame begins the waiting session of its tag, if it is this charger's; a repeat is answered as
  // before; any other uses up one id and changes nothing else.
  lemma StartBeginsItsSession(w: World, i: nat, charger: Id, meterStart: real, at: int)
    requires WorldSound(w) && i < |w.sessions|
    ensures var s := w.sessions[i]; var w' := StartTransaction(w, charger, s.idTag, meterStart, at);
            if s.status == Initiating && s.charger == charger then Begins(w, w', i, meterStart, at)
            else if s.status == Active then w' == w
            else w' == w.(nextTransactionId := w.nextTransactionId + 1)
  {
    TagIsItsOwn(w, i);
    assert SessionSound(w.sessions[i]);
  }

  lemma UnknownTagIsRefused(w: World, charger: Id, idTag: string, meterStart: real, at: int)
    requires forall i :: 0 <= i < |w.sessions| ==> w.sessions[i].idTag != idTag
    ensures StartTransaction(w, charger, idTag, meterStart, at) == w.(nextTransactionId := w.nextTransactionId + 1)
  {
  }

  /* ------------------------------ what fails them ----------------------------- */

  // A charger fails: its open sessions end and its plugs in mid-flight are out of service.
  ghost predicate FailsOnCharger(w: World, w': World, charger: Id, reason: StopReason, now: int) {
    && |w'.sessions| == |w.sessions| && |w'.plugs| == |w.plugs|
    && (forall i :: 0 <= i < |w.sessions| ==>
          if Open(w.sessions[i]) && w.sessions[i].charger == charger
            then Fails(w.sessions[i], w'.sessions[i], reason, now)
          else w'.sessions[i] == w.sessions[i])
    && (forall p :: 0 <= p < |w.plugs| ==>
          w'.plugs[p] == if w.plugs[p].charger == charger && w.plugs[p].status in {Preparing, Charging, Finishing}
                         then w.plugs[p].(status := Unavailable) else w.plugs[p])
    && w'.tariffs == w.tariffs && w'.nextTransactionId == w.nextTransactionId
  }

  lemma DisconnectEffect(w: World, charger: Id, now: int)
    requires WorldSound(w)
    ensures var w' := Next(w, Disconnect(charger, now));
            FailsOnCharger(w, w', charger, ChargerDisconnected, now) && w'.chargers == w.chargers
  {
    FailOnChargerFails(w, charger, ChargerDisconnected, now);
  }

  lemma FailOnChargerFails(w: World, charger: Id, reason: StopReason, now: int)
    requires WorldSound(w)
    ensures var w' := FailOnCharger(w, charger, reason, now);
            FailsOnCharger(w, w', charger, reason, now) && w'.chargers == w.chargers
  {
    forall i | 0 <= i < |w.sessions| && Open(w.sessions[i]) && w.sessions[i].charger == charger
      ensures Fails(w.sessions[i], FailSession(w.sessions[i], reason, now), reason, now)
    {
      FailSessionFails(w.sessions[i], reason, now);
    }
  }

  // A machine's own report is recorded when it is news, with the time unless it is back in operation; and a
  // new fault fails everything on it.
  lemma ChargerReportEffect(w: World, charger: Id, reported: Option<Hardware>, now: int)
    requires WorldSound(w) && charger < |w.chargers|
    ensures var w' := Next(w, ChargerReport(charger, reported, now));
            if reported.None? || reported == Some(w.chargers[charger].hardware) then w' == w
            else
              && w'.chargers == w.chargers[charger := w.chargers[charger].(
                   hardware := reported.value,
                   faultReportedAt := if reported == Some(Operative) then None else Some(now))]
              && (reported == Some(HardwareFaulted) ==> FailsOnCharger(w, w', charger, HardwareFault, now))
              && (reported != Some(HardwareFaulted) ==> w' == w.(chargers := w'.chargers))
  {
    if reported.Some? && w.chargers[charger].hardware != reported.value {
      var written := w.(chargers := w.chargers[charger := w.chargers[charger].(
        hardware := reported.value, faultReportedAt := if reported.value == Operative then None else Some(now))]);
      FailOnChargerFails(written, charger, HardwareFault, now);
    }
  }

  // A plug's report is its status from then on, whatever it says; and a new fault ends its session.
  lemma PlugReportEffect(w: World, charger: Id, number: int, status: PlugStatus, now: int)
    requires WorldSound(w)
    ensures var w' := Next(w, PlugReport(charger, number, status, now));
            match FindPlug(w.plugs, charger, number)
            case None => w' == w
            case Some(c) =>
              && w'.plugs == w.plugs[c := w.plugs[c].(status := status)]
                 && w' == w.(plugs := w'.plugs, sessions := w'.sessions)
              && |w'.sessions| == |w.sessions|
              && (forall i :: 0 <= i < |w.sessions| ==>
                    if Open(w.sessions[i]) && w.sessions[i].connector == c && status == Faulted
                      && w.plugs[c].status != Faulted
                    then Fails(w.sessions[i], w'.sessions[i], HardwareFault, now) else w'.sessions[i] == w.sessions[i])
  {
    forall i | 0 <= i < |w.sessions| && Open(w.sessions[i])
      ensures Fails(w.sessions[i], FailSession(w.sessions[i], HardwareFault, now), HardwareFault, now)
    {
      FailSessionFails(w.sessions[i], HardwareFault, now);
    }
  }

  // The timeout sweep ends exactly the starts asked for too long ago and never confirmed.
  lemma TimeoutEffect(w: World, timeout: int, now: int)
    requires WorldSound(w)
    ensures var w' := Next(w, Timeout(timeout, now));
            && |w'.sessions| == |w.sessions| && w' == w.(sessions := w'.sessions)
            && (forall i :: 0 <= i < |w.sessions| ==>
                  if w.sessions[i].status == Initiating && w.sessions[i].requestedAt + timeout < now
                  then FailsFree(w.sessions[i], w'.sessions[i], StartTimeout, now) else w'.sessions[i] == w.sessions[i])
  {
    forall i | 0 <= i < |w.sessions| && w.sessions[i].status == Initiating
      ensures FailsFree(w.sessions[i], MarkFailed(w.sessions[i], StartTimeout, now), StartTimeout, now)
    {
      MarkFailedIsFree(w.sessions[i], StartTimeout, now);
    }
  }

  /* ----------------------------- what people ask for -------------------------- */

  // A start that the charger refused or did not answer is over, free of charge; one that has moved on stands.
  lemma RefuseEffect(w: World, i: nat, reason: StopReason, now: int)
    requires WorldSound(w) && i < |w.sessions|
    ensures var w' := Next(w, Refuse(i, reason, now));
            && OnlySession(w, w', i)
            && if w.sessions[i].status == Initiating then FailsFree(w.sessions[i], w'.sessions[i], reason, now)
               else w' == w
  {
    if w.sessions[i].status == Initiating {
      MarkFailedIsFree(w.sessions[i], reason, now);
    } else {
      assert w.sessions[i := w.sessions[i]] == w.sessions;
    }
  }

  // A stop request: an unconfirmed start is over, free of charge; a running session is asked to stop if its
  // charger is there and agrees, and fails if it is gone; any other stands.
  lemma StopRequestEffect(w: World, i: nat, connected: bool, accepted: bool, now: int)
    requires WorldSound(w) && i < |w.sessions|
    ensures var s := w.sessions[i]; var w' := Next(w, Stop(i, connected, accepted, now));
            && OnlySession(w, w', i)
            && if s.status == Initiating then FailsFree(s, w'.sessions[i], StartTimeout, now)
               else if s.status == Active && !connected then Fails(s, w'.sessions[i], ChargerDisconnected, now)
               else if s.status == Active && accepted then w'.sessions[i] == s.(status := Stopping)
               else w' == w
  {
    var s := w.sessions[i];
    assert SessionSound(s);
    assert w.sessions[i := w.sessions[i]] == w.sessions;
    if s.status == Initiating {
      MarkFailedIsFree(s, StartTimeout, now);
    } else if s.status == Active {
      FailSessionFails(s, ChargerDisconnected, now);
    }
  }

  /* ---------------------------------- prices ---------------------------------- */

  // Price sheets change nothing but the price that the next session starts at: a new or edited sheet's price is
  // in force once it is activated, and an active one's at once.
  lemma PriceEventsEffect(w: World, company: Id, price: int, t: Id)
    requires WorldSound(w)
    ensures var n := |w.tariffs|;
            var w' := Next(Next(w, NewTariff(company, price)), SwitchTariff(n, true));
            w' == w.(tariffs := w'.tariffs) && PriceInForce(w'.tariffs, company) == Some(price)
            && forall c :: c != company ==> PriceInForce(w'.tariffs, c) == PriceInForce(w.tariffs, c)
    ensures t < |w.tariffs| ==>
              var w' := Next(Next(w, EditTariff(t, price)), SwitchTariff(t, true));
              w' == w.(tariffs := w'.tariffs) && PriceInForce(w'.tariffs, w.tariffs[t].company) == Some(price)
              && forall c :: c != w.tariffs[t].company ==> PriceInForce(w'.tariffs, c) == PriceInForce(w.tariffs, c)
    ensures t < |w.tariffs| && w.tariffs[t].active ==>
              PriceInForce(Next(w, EditTariff(t, price)).tariffs, w.tariffs[t].company) == Some(price)
    ensures forall c :: PriceInForce(Next(w, NewTariff(company, price)).tariffs, c) == PriceInForce(w.tariffs, c)
    ensures Next(w, SwitchTariff(t, false)) == w
  {
    NewThenOn(w.tariffs, company, price);
    if t < |w.tariffs| {
      EditThenOn(w.tariffs, t, price);
    }
    DeactivateNeverActs(w.tariffs, t);
  }

  lemma NewThenOn(tariffs: seq<Tariff>, company: Id, price: int)
    requires OneActive(tariffs)
    ensures forall c :: PriceInForce(Create(tariffs, company, price), c) == PriceInForce(tariffs, c)
    ensures forall c :: PriceInForce(Activate(Create(tariffs, company, price), |tariffs|), c)
                        == if c == company then Some(price) else PriceInForce(tariffs, c)
  {
    var created := Create(tariffs, company, price);
    forall c ensures PriceInForce(created, c) == PriceInForce(tariffs, c) {
      SamePrices(tariffs, created, c);
    }
    SwitchedPrices(created, Activate(created, |tariffs|), |tariffs|, true);
  }

  lemma EditThenOn(tariffs: seq<Tariff>, t: Id, price: int)
    requires OneActive(tariffs) && t < |tariffs|
    ensures forall c :: PriceInForce(Activate(Update(tariffs, t, price), t), c)
                        == if c == tariffs[t].company then Some(price) else PriceInForce(tariffs, c)
    ensures tariffs[t].active ==> PriceInForce(Update(tariffs, t, price), tariffs[t].company) == Some(price)
  {
    var edited := Update(tariffs, t, price);
    forall c ensures PriceInForce(edited, c) == if tariffs[t].active && c == tariffs[t].company then Some(price)
                                                else PriceInForce(tariffs, c)
    {
      UpdatedPrice(tariffs, t, price, c);
    }
    UpdatedPrice(tariffs, t, price, tariffs[t].company);
    SwitchedPrices(edited, Activate(edited, t), t, true);
  }

  /* --------------------------------- endings ---------------------------------- */

  // Why an open session ends: what the event says, and how the session and its plug stood before it.
  predicate Cause(w: World, i: nat, e: Event)
    requires i < |w.sessions|
  {
    var s := w.sessions[i];
    match e
    case Finish(tx, _, _) => s.transactionId == Some(tx)
    case Disconnect(charger, _) => s.charger == charger
    case PlugReport(charger, number, status, _) =>
      status == Faulted && s.connector < |w.plugs| && w.plugs[s.connector].status != Faulted
      && FindPlug(w.plugs, charger, number) == Some(s.connector)
    case ChargerReport(charger, reported, _) =>
      s.charger == charger && charger < |w.chargers| && reported == Some(HardwareFaulted)
      && w.chargers[charger].hardware != HardwareFaulted
    case Timeout(timeout, now) => s.status == Initiating && s.requestedAt + timeout < now
    case Refuse(session, _, _) => session == i && s.status == Initiating
    case Stop(session, connected, _, _) => session == i
      && (s.status == Initiating || (s.status == Active && !connected))
    case _ => false
  }

  lemma HardwareEndsExactlyWhen(w: World, e: Event, i: nat)
    requires WorldSound(w) && i < |w.sessions| && Open(w.sessions[i])
    requires e.Disconnect? || e.PlugReport? || e.ChargerReport?
    ensures i < |Next(w, e).sessions| && (Ended(Next(w, e).sessions[i]) <==> Cause(w, i, e))
  {
    match e
    case Disconnect(charger, now) => DisconnectEffect(w, charger, now);
    case PlugReport(charger, number, status, now) => PlugReportEffect(w, charger, number, status, now);
    case ChargerReport(charger, reported, now) =>
      if charger < |w.chargers| {
        ChargerReportEffect(w, charger, reported, now);
      }
  }

  lemma RequestEndsExactlyWhen(w: World, e: Event, i: nat)
    requires WorldSound(w) && i < |w.sessions| && Open(w.sessions[i]) && (e.Timeout? || e.Refuse? || e.Stop?)
    ensures i < |Next(w, e).sessions| && (Ended(Next(w, e).sessions[i]) <==> Cause(w, i, e))
  {
    match e
    case Timeout(timeout, now) => TimeoutEffect(w, timeout, now);
    case Refuse(session, reason, now) =>
      if session < |w.sessions| {
        RefuseEffect(w, session, reason, now);
      }
    case Stop(session, connected, accepted, now) =>
      if session < |w.sessions| {
        StopRequestEffect(w, session, connected, accepted, now);
      }
  }

  lemma StopEndsExactlyWhen(w: World, e: Event, i: nat)
    requires WorldSound(w) && i < |w.sessions| && Open(w.sessions[i]) && e.Finish?
    ensures i < |Next(w, e).sessions| && (Ended(Next(w, e).sessions[i]) <==> Cause(w, i, e))
  {
    if w.sessions[i].transactionId == Some(e.transactionId) {
      StopEndsItsSession(w, i, e.transactionId, e.meterStop, e.at);
    }
  }

  // An open session ends with an event exactly when the event is cause for it.
  lemma EndsExactlyWhen(w: World, e: Event, i: nat)
    requires WorldSound(w) && i < |w.sessions| && Open(w.sessions[i])
    ensures i < |Next(w, e).sessions| && (Ended(Next(w, e).sessions[i]) <==> Cause(w, i, e))
  {
    if e.Disconnect? || e.PlugReport? || e.ChargerReport? {
      HardwareEndsExactlyWhen(w, e, i);
    } else if e.Timeout? || e.Refuse? || e.Stop? {
      RequestEndsExactlyWhen(w, e, i);
    } else if e.Finish? {
      StopEndsExactlyWhen(w, e, i);
    } else {
      NothingElseEnds(w, e, i);
    }
  }

  lemma NothingElseEnds(w: World, e: Event, i: nat)
    requires i < |w.sessions| && Open(w.sessions[i])
    requires e.Start? || e.Begin? || e.Meter? || e.NewTariff? || e.EditTariff? || e.SwitchTariff? || e.Restart?
    ensures i < |Next(w, e).sessions| && Open(Next(w, e).sessions[i])
  {
  }

  // A waiting session becomes active exactly when its own charger confirms its tag.
  lemma ActiveExactlyWhen(w: World, e: Event, i: nat)
    requires WorldSound(w) && i < |w.sessions| && w.sessions[i].status == Initiating
    ensures i < |Next(w, e).sessions|
    ensures Next(w, e).sessions[i].status == Active
            <==> e.Begin? && e.charger == w.sessions[i].charger && e.idTag == w.sessions[i].idTag
  {
    if e.Begin? {
      if e.idTag == w.sessions[i].idTag {
        StartBeginsItsSession(w, i, e.charger, e.meterStart, e.at);
      }
    } else {
      OnlyBeginActivates(w, e, i);
    }
  }

  lemma OnlyBeginActivates(w: World, e: Event, i: nat)
    requires i < |w.sessions| && w.sessions[i].status == Initiating && w.sessions[i].transactionId.None? && !e.Begin?
    ensures i < |Next(w, e).sessions| && Next(w, e).sessions[i].status != Active
  {
  }
}
