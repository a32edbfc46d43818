// What every run of session events keeps: the lifecycle, the reservations, the meter and the bill.

module SessionRuns {
  import opened Options
  import opened Money
  import opened Tariffs
  import opened Sessions

  /* -------------------------------- invariant -------------------------------- */

  // Readings rise in storage order, each with its own timestamp.
  ghost predicate Rising(readings: seq<Reading>) {
    forall i, j :: 0 <= i < j < |readings| ==>
      readings[i].energyWh < readings[j].energyWh && readings[i].at != readings[j].at
  }

  // The largest of the starting value and every stored reading.
  function Highest(startWh: real, readings: seq<Reading>): (highest: real)
    ensures highest >= startWh && forall i :: 0 <= i < |readings| ==> readings[i].energyWh <= highest
    ensures highest == startWh || exists i :: 0 <= i < |readings| && readings[i].energyWh == highest
  {
    if readings == [] then startWh
    else
      var n := |readings| - 1;
      var before := Highest(startWh, readings[..n]);
      if readings[n].energyWh > before then readings[n].energyWh else before
  }

  predicate NeverStarted(s: Session) {
    s.startWh.None? && s.lastWh.None? && s.startedAt.None? && s.readings == [] && s.energyWh == 0.0
  }

  // An open session owes nothing yet; it is initiating until the charger confirms.
  predicate OpenSound(s: Session) {
    && s.amount.None? && !s.paid && s.endedAt.None? && s.endWh.None? && s.stopReason.None?
    && (s.status == Initiating <==> s.transactionId.None?)
    && (s.transactionId.None? <==> s.startWh.None?)
    && (s.startWh.Some? ==>
          s.startedAt.Some? && s.lastWh == Some(Highest(s.startWh.value, s.readings))
          && s.energyWh == ConsumedWh(s.startWh, s.lastWh))
  }

  // An ended session is billed for the difference of its closing and starting values.
  predicate EndedSound(s: Session) {
    && s.endedAt.Some? && s.stopReason.Some? && s.rate.Some?
    && s.amount == Some(CalculateAmountPaise(s.energyWh, s.rate.value)) && (s.paid <==> s.amount == Some(0))
    && s.energyWh == ConsumedWh(s.startWh, s.endWh)
    && (s.startWh.Some? <==> s.endWh.Some?)
    && (s.status == Completed ==> s.startWh.Some?)
    && (s.status == Failed && s.startWh.Some? ==> s.endWh == Some(Highest(s.startWh.value, s.readings)))
  }

  ghost predicate SessionSound(s: Session) {
    && s.rate.Some? && Rising(s.readings)
    && (s.startWh.None? ==> NeverStarted(s))
    && (if Open(s) then OpenSound(s) else EndedSound(s))
  }

  predicate Moves(before: Status, after: Status) {
    || before == after
    || (before == Initiating && (after == Active || after == Failed))
    || (before == Active && (after == Stopping || after == Completed || after == Failed))
    || (before == Stopping && (after == Completed || after == Failed))
  }

  // What one step may do to one session.
  predicate Evolves(s: Session, s': Session) {
    && s'.user == s.user && s'.company == s.company && s'.charger == s.charger && s'.connector == s.connector
    && s'.idTag == s.idTag && s'.requestedAt == s.requestedAt && s'.rate == s.rate
    && Moves(s.status, s'.status)
    && (s.transactionId.Some? ==> s'.transactionId == s.transactionId)
    && (s.startWh.Some? ==> s'.startWh == s.startWh)
    && s.readings <= s'.readings
    && (Ended(s) ==> s' == s)
  }

  ghost predicate Unique(sessions: seq<Session>) {
    forall i, j :: 0 <= i < j < |sessions| ==>
      && (Open(sessions[i]) && Open(sessions[j]) ==>
            sessions[i].connector != sessions[j].connector && sessions[i].user != sessions[j].user)
      && sessions[i].idTag != sessions[j].idTag
      && (sessions[i].transactionId.Some? ==> sessions[i].transactionId != sessions[j].transactionId)
  }

  ghost predicate WorldSound(w: World) {
    && (forall i :: 0 <= i < |w.sessions| ==> SessionSound(w.sessions[i]))
    && Unique(w.sessions) && OneActive(w.tariffs)
  }

  ghost predicate AllEvolve(sessions: seq<Session>, sessions': seq<Session>) {
    |sessions| <= |sessions'| && forall i :: 0 <= i < |sessions| ==> Evolves(sessions[i], sessions'[i])
  }

  // Before any session: whatever chargers and plugs there are, and consistent tariffs.
  ghost predicate Fresh(w: World) {
    w.sessions == [] && OneActive(w.tariffs)
  }

  /* ----------------------------- one session's step -------------------------- */

  lemma FailSound(s: Session, reason: StopReason, now: int)
    requires SessionSound(s) && Open(s)
    ensures var s' := FailSession(s, reason, now);
            SessionSound(s') && Evolves(s, s') && s'.status == Failed && s'.transactionId == s.transactionId
  {
  }

  lemma MarkFailedSound(s: Session, reason: StopReason, now: int)
    requires SessionSound(s)
    ensures var s' := MarkFailed(s, reason, now);
            SessionSound(s') && Evolves(s, s') && s'.transactionId == s.transactionId && s'.status != Initiating
  {
  }

  lemma CompleteSound(s: Session, meterStop: real, at: int)
    requires SessionSound(s) && Open(s) && s.transactionId.Some?
    ensures var s' := CompleteSession(s, meterStop, at);
            SessionSound(s') && Evolves(s, s') && s'.transactionId == s.transactionId
  {
  }

  lemma StoreSound(s: Session, energyWh: real, at: int)
    requires SessionSound(s) && Open(s) && s.transactionId.Some?
    ensures var s' := StoreReading(s, energyWh, at);
            SessionSound(s') && Evolves(s, s') && s'.transactionId == s.transactionId
  {
    var s' := StoreReading(s, energyWh, at);
    if s' != s {
      assert s'.readings[..|s.readings|] == s.readings;
    }
  }

  lemma BeginSound(s: Session, id: nat, meterStart: real, at: int)
    requires SessionSound(s) && s.status == Initiating
    ensures var s' := s.(status := Active, transactionId := Some(id), startedAt := Some(at),
                         startWh := Some(meterStart), lastWh := Some(meterStart));
            SessionSound(s') && Evolves(s, s')
  {
  }

  /* ----------------------------- one world's step ---------------------------- */

  lemma OneChanged(w: World, w': World, i: nat)
    requires WorldSound(w) && i < |w.sessions| && |w'.sessions| == |w.sessions| && OneActive(w'.tariffs)
    requires w'.sessions == w.sessions[i := w'.sessions[i]]
    requires SessionSound(w'.sessions[i]) && Evolves(w.sessions[i], w'.sessions[i])
    requires w'.sessions[i].transactionId == w.sessions[i].transactionId
             || (w'.sessions[i].transactionId.Some?
                && !TransactionTaken(w.sessions, w'.sessions[i].transactionId.value))
    ensures WorldSound(w') && AllEvolve(w.sessions, w'.sessions)
  {
  }

  lemma SomeEnded(w: World, w': World, which: Session -> bool, end: Session -> Session)
    requires WorldSound(w) && w'.sessions == EndAll(w.sessions, which, end) && w'.tariffs == w.tariffs
    requires forall s :: SessionSound(s) && which(s) ==>
               SessionSound(end(s)) && Evolves(s, end(s)) && end(s).transactionId == s.transactionId
    ensures WorldSound(w') && AllEvolve(w.sessions, w'.sessions)
  {
  }

  lemma FailAllSound(w: World, w': World, which: Session -> bool, reason: StopReason, now: int)
    requires WorldSound(w) && w'.sessions == EndAll(w.sessions, which, Failing(reason, now)) && w'.tariffs == w.tariffs
    requires forall s :: which(s) ==> Open(s)
    ensures WorldSound(w') && AllEvolve(w.sessions, w'.sessions)
  {
    forall s | SessionSound(s) && which(s)
      ensures SessionSound(Failing(reason, now)(s)) && Evolves(s, Failing(reason, now)(s))
              && Failing(reason, now)(s).transactionId == s.transactionId
    {
      FailSound(s, reason, now);
    }
    SomeEnded(w, w', which, Failing(reason, now));
  }

  lemma StartSound(w: World, user: Id, connector: Id, idTag: string, facts: Facts, now: int)
    requires WorldSound(w)
    ensures var w' := StartSession(w, user, connector, idTag, facts, now);
            WorldSound(w') && AllEvolve(w.sessions, w'.sessions)
  {
  }

  lemma BeginsSound(w: World, charger: Id, idTag: string, meterStart: real, at: int)
    requires WorldSound(w)
    ensures var w' := StartTransaction(w, charger, idTag, meterStart, at);
            WorldSound(w') && AllEvolve(w.sessions, w'.sessions)
  {
    var w' := StartTransaction(w, charger, idTag, meterStart, at);
    if w'.sessions != w.sessions {
      var i := FindTag(w.sessions, idTag).value;
      BeginSound(w.sessions[i], AllocateFor(w.sessions, w.nextTransactionId), meterStart, at);
      OneChanged(w, w', i);
    }
  }

  lemma StopSound(w: World, session: Id, connected: bool, accepted: bool, now: int)
    requires WorldSound(w)
    ensures var w' := StopSession(w, session, connected, accepted, now);
            WorldSound(w') && AllEvolve(w.sessions, w'.sessions)
  {
    var w' := StopSession(w, session, connected, accepted, now);
    if session < |w.sessions| {
      var s := w.sessions[session];
      if s.status == Initiating {
        MarkFailedSound(s, StartTimeout, now);
      } else if s.status == Active && !connected {
        FailSound(s, ChargerDisconnected, now);
      }
      OneChanged(w, w', session);
    }
  }

  lemma TariffsStayUnique(tariffs: seq<Tariff>, e: Event)
    requires OneActive(tariffs)
    ensures e.NewTariff? ==> OneActive(Create(tariffs, e.company, e.price))
    ensures e.EditTariff? ==> OneActive(Update(tariffs, e.tariff, e.price))
    ensures e.SwitchTariff? ==> OneActive(if e.on then Activate(tariffs, e.tariff) else Deactivate(tariffs, e.tariff))
  {
    if e.SwitchTariff? {
      if e.on && e.tariff < |tariffs| {
        ActivateSwaps(tariffs, e.tariff);
      } else if !e.on {
        DeactivateNeverActs(tariffs, e.tariff);
      }
    }
  }

  lemma TariffStepSound(w: World, e: Event)
    requires WorldSound(w) && (e.NewTariff? || e.EditTariff? || e.SwitchTariff? || e.Restart?)
    ensures WorldSound(Next(w, e)) && AllEvolve(w.sessions, Next(w, e).sessions)
  {
    TariffsStayUnique(w.tariffs, e);
    SameSessions(w, Next(w, e));
  }

  lemma SameSessions(w: World, w': World)
    requires WorldSound(w) && w'.sessions == w.sessions && OneActive(w'.tariffs)
    ensures WorldSound(w') && AllEvolve(w.sessions, w'.sessions)
  {
  }

  lemma HardwareStepSound(w: World, e: Event)
    requires WorldSound(w) && (e.Disconnect? || e.PlugReport? || e.ChargerReport?)
    ensures WorldSound(Next(w, e)) && AllEvolve(w.sessions, Next(w, e).sessions)
  {
    var w' := Next(w, e);
    match e
    case Disconnect(charger, now) => FailAllSound(w, w', OnCharger(charger), ChargerDisconnected, now);
    case PlugReport(charger, number, status, now) =>
      var c := FindPlug(w.plugs, charger, number);
      if c.Some? && w'.sessions != w.sessions {
        FailAllSound(w, w', OnConnector(c.value), HardwareFault, now);
      }
    case ChargerReport(charger, reported, now) =>
      if w'.sessions != w.sessions {
        FailAllSound(w, w', OnCharger(charger), HardwareFault, now);
      }
  }

  lemma TimeoutSound(w: World, timeout: int, now: int)
    requires WorldSound(w)
    ensures var w' := SweepUnconfirmed(w, timeout, now);
            WorldSound(w') && AllEvolve(w.sessions, w'.sessions)
  {
    forall s | SessionSound(s) && Unconfirmed(now - timeout)(s)
      ensures SessionSound(TimingOut(now)(s)) && Evolves(s, TimingOut(now)(s))
              && TimingOut(now)(s).transactionId == s.transactionId
    {
      MarkFailedSound(s, StartTimeout, now);
    }
    SomeEnded(w, SweepUnconfirmed(w, timeout, now), Unconfirmed(now - timeout), TimingOut(now));
  }

  lemma MeterSound(w: World, transactionId: nat, energyWh: real, at: int)
    requires WorldSound(w)
    ensures var w' := MeterValues(w, transactionId, energyWh, at);
            WorldSound(w') && AllEvolve(w.sessions, w'.sessions)
  {
    var i := FindOpenTransaction(w.sessions, transactionId);
    if i.Some? {
      StoreSound(w.sessions[i.value], energyWh, at);
      OneChanged(w, MeterValues(w, transactionId, energyWh, at), i.value);
    }
  }

  lemma FinishSound(w: World, transactionId: nat, meterStop: real, at: int)
    requires WorldSound(w)
    ensures var w' := StopTransaction(w, transactionId, meterStop, at);
            WorldSound(w') && AllEvolve(w.sessions, w'.sessions)
  {
    var i := FindOpenTransaction(w.sessions, transactionId);
    if i.Some? {
      CompleteSound(w.sessions[i.value], meterStop, at);
      OneChanged(w, StopTransaction(w, transactionId, meterStop, at), i.value);
    }
  }

  lemma RefuseSound(w: World, session: Id, reason: StopReason, now: int)
    requires WorldSound(w)
    ensures var w' := StartRefused(w, session, reason, now);
            WorldSound(w') && AllEvolve(w.sessions, w'.sessions)
  {
    if session < |w.sessions| {
      MarkFailedSound(w.sessions[session], reason, now);
      OneChanged(w, StartRefused(w, session, reason, now), session);
    }
  }

  lemma NextSound(w: World, e: Event)
    requires WorldSound(w)
    ensures WorldSound(Next(w, e)) && AllEvolve(w.sessions, Next(w, e).sessions)
  {
    match e
    case Start(user, connector, idTag, facts, now) => StartSound(w, user, connector, idTag, facts, now);
    case Refuse(session, reason, now) => RefuseSound(w, session, reason, now);
    case Stop(session, connected, accepted, now) => StopSound(w, session, connected, accepted, now);
    case Begin(charger, idTag, meterStart, at) => BeginsSound(w, charger, idTag, meterStart, at);
    case Meter(tx, energyWh, at) => MeterSound(w, tx, energyWh, at);
    case Finish(tx, meterStop, at) => FinishSound(w, tx, meterStop, at);
    case Timeout(timeout, now) => TimeoutSound(w, timeout, now);
    case Disconnect(_, _) => HardwareStepSound(w, e);
    case PlugReport(_, _, _, _) => HardwareStepSound(w, e);
    case ChargerReport(_, _, _) => HardwareStepSound(w, e);
    case _ => TariffStepSound(w, e);
  }

  lemma {:induction false} RunSound(w: World, events: seq<Event>)
    requires Fresh(w)
    ensures WorldSound(Run(w, events))
  {
    if events != [] {
      RunSound(w, events[..|events| - 1]);
      NextSound(Run(w, events[..|events| - 1]), events[|events| - 1]);
    }
  }
}
