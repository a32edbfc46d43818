// Where a session's figures come from, and why it began and ended: every value on the bill was asked
// for by its driver or reported by its charger.

module Provenance {
  import opened Options
  import opened Money
  import opened Tariffs
  import opened Sessions
  import opened SessionRuns
  import SessionGuarantees

  /* ---------------------------------- starting ------------------------------- */

  // A session as it was asked for: this driver, plug, charger and tag, at the price in force, nothing yet
  // measured or owed.
  predicate Asked(w: World, s: Session, user: Id, connector: Id, idTag: string, now: int)
    requires connector < |w.plugs| && w.plugs[connector].charger < |w.chargers|
  {
    && s.user == user && s.connector == connector && s.idTag == idTag && s.requestedAt == now
    && s.charger == w.plugs[connector].charger && s.company == w.chargers[s.charger].company
    && s.rate == PriceInForce(w.tariffs, s.company) && s.rate.Some?
    && s.status == Initiating && OpenSound(s) && NeverStarted(s)
  }

  // A start creates a session exactly when nobody and nothing stands in its way.
  lemma StartsExactlyWhen(w: World, user: Id, connector: Id, idTag: string, facts: Facts, now: int)
    requires connector < |w.plugs| && w.plugs[connector].charger < |w.chargers|
    ensures var plug := w.plugs[connector]; var charger := w.chargers[plug.charger];
            |StartSession(w, user, connector, idTag, facts, now).sessions| == |w.sessions| + 1
            <==> && (forall i :: 0 <= i < |w.sessions| ==>
                       && w.sessions[i].idTag != idTag
                       && (Open(w.sessions[i]) ==> w.sessions[i].user != user && w.sessions[i].connector != connector))
                 && facts.inService && facts.online && facts.connected && !facts.inArrears
                 && charger.hardware == Operative
                 && plug.status in {Available, Preparing, Finishing}
                 && (exists t :: 0 <= t < |w.tariffs| && w.tariffs[t].company == charger.company && w.tariffs[t].active)
    ensures var w' := StartSession(w, user, connector, idTag, facts, now); var n := |w.sessions|;
            if |w'.sessions| == n + 1 then
              && w' == w.(sessions := w.sessions + [w'.sessions[n]])
                 && Asked(w, w'.sessions[n], user, connector, idTag, now)
            else w' == w
  {
    var price := FindActive(w.tariffs, w.chargers[w.plugs[connector].charger].company);
    if price.Some? {
      assert w.tariffs[price.value].active;
    }
  }

  /* ----------------------------------- ending -------------------------------- */

  // Why an open session ended with this event: what ended it is on its record, with when and at what value.
  predicate EndedBecause(s: Session, s': Session, e: Event) {
    match e
    case Finish(tx, meterStop, at) =>
      && s'.status == Completed && s.transactionId == Some(tx) && s'.endedAt == Some(at) && s'.endWh == Some(meterStop)
      && s'.stopReason == Some(if s.status == Stopping then Remote else Local)
    case Disconnect(charger, now) => s.charger == charger && Cut(s, s', ChargerDisconnected, now)
    case PlugReport(charger, number, status, now) => status == Faulted && Cut(s, s', HardwareFault, now)
    case ChargerReport(charger, reported, now) =>
      s.charger == charger && reported == Some(HardwareFaulted) && Cut(s, s', HardwareFault, now)
    case Timeout(timeout, now) => s.requestedAt < now - timeout && NeverBegan(s, s', StartTimeout, now)
    case Refuse(_, reason, now) => NeverBegan(s, s', reason, now)
    case Stop(_, connected, _, now) =>
      NeverBegan(s, s', StartTimeout, now) || (s.status == Active && !connected && Cut(s, s', ChargerDisconnected, now))
    case _ => false
  }

  // Cut short: failed at the last value that arrived, no earlier than the last reading and never later
  // than now.
  predicate Cut(s: Session, s': Session, reason: StopReason, now: int) {
    && s'.status == Failed && s'.stopReason == Some(reason) && s'.endWh == s.lastWh
    && s'.endedAt.Some? && s'.endedAt.value <= now
    && (forall k :: 0 <= k < |s.readings| && s.readings[k].at <= now ==> s.readings[k].at <= s'.endedAt.value)
    && (s.startedAt.Some? && s.startedAt.value <= now ==> s.startedAt.value <= s'.endedAt.value)
  }

  predicate NeverBegan(s: Session, s': Session, reason: StopReason, now: int) {
    s.status == Initiating && s'.status == Failed && s'.stopReason == Some(reason) && s'.endedAt == Some(now)
  }

  lemma FailIsCut(s: Session, reason: StopReason, now: int)
    ensures Cut(s, FailSession(s, reason, now), reason, now)
  {
    var at := LastEvidence(s, now);
  }

  lemma CutForACause(w: World, e: Event, i: nat)
    requires i < |w.sessions| && Open(w.sessions[i]) && i < |Next(w, e).sessions| && Ended(Next(w, e).sessions[i])
    requires e.Disconnect? || e.PlugReport? || e.ChargerReport?
    ensures EndedBecause(w.sessions[i], Next(w, e).sessions[i], e)
  {
    FailIsCut(w.sessions[i], if e.Disconnect? then ChargerDisconnected else HardwareFault, e.now);
  }

  lemma StopForACause(w: World, e: Event, i: nat)
    requires i < |w.sessions| && Open(w.sessions[i]) && i < |Next(w, e).sessions| && Ended(Next(w, e).sessions[i])
    requires e.Stop?
    ensures EndedBecause(w.sessions[i], Next(w, e).sessions[i], e)
  {
    FailIsCut(w.sessions[i], ChargerDisconnected, e.now);
  }

  // A session ends only for one of these causes, and its record says which.
  lemma EndsForACause(w: World, e: Event, i: nat)
    requires i < |w.sessions| && Open(w.sessions[i]) && i < |Next(w, e).sessions| && Ended(Next(w, e).sessions[i])
    ensures EndedBecause(w.sessions[i], Next(w, e).sessions[i], e)
  {
    match e
    case Disconnect(_, _) => CutForACause(w, e, i);
    case PlugReport(_, _, _, _) => CutForACause(w, e, i);
    case ChargerReport(_, _, _) => CutForACause(w, e, i);
    case Stop(_, _, _, _) => StopForACause(w, e, i);
    case _ =>
  }

  // A stop request moves a session to stopping exactly when a connected charger accepted it.
  lemma StoppingNeedsTheCharger(w: World, session: nat, connected: bool, accepted: bool, now: int)
    requires session < |w.sessions|
    ensures var s, s' := w.sessions[session], StopSession(w, session, connected, accepted, now).sessions[session];
            && (s'.status == Stopping <==>
                  s.status == Stopping || (s.status == Active && s.transactionId.Some? && connected && accepted))
            && (s'.status == Stopping ==> s' == s.(status := Stopping))
  {
  }

  predicate StoppingAt(w: World, events: seq<Event>, i: nat) {
    i < |Run(w, events).sessions| && Run(w, events).sessions[i].status == Stopping
  }

  // The session is `stopping` now, or was at some earlier point of the run.
  predicate WasStopping(w: World, events: seq<Event>, i: nat) {
    StoppingAt(w, events, i) || (events != [] && WasStopping(w, events[..|events| - 1], i))
  }

  // What the status and the record of a session say about its having been through `stopping`.
  predicate Tells(s: Session, wasStopping: bool) {
    && (s.status == Initiating || s.status == Active ==> !wasStopping)
    && (s.status == Stopping ==> wasStopping)
    && (s.status == Completed ==> (wasStopping <==> s.stopReason == Some(Remote)))
  }

  lemma StillTells(s: Session, s': Session, e: Event, before: bool)
    requires Tells(s, before) && Evolves(s, s') && (Open(s) && Ended(s') ==> EndedBecause(s, s', e))
    ensures Tells(s', before || s'.status == Stopping)
  {
  }

  // In every run a completed session went through `stopping` if and only if its record says that it was
  // stopped remotely; one that says it was stopped locally went from `active` straight to `completed`.
  lemma {:induction false} RemoteMeansThroughStopping(w: World, events: seq<Event>, i: nat)
    requires Fresh(w) && i < |Run(w, events).sessions|
    ensures Tells(Run(w, events).sessions[i], WasStopping(w, events, i))
  {
    var n := |events| - 1;
    var before, e := Run(w, events[..n]), events[n];
    RunSound(w, events[..n]);
    NextSound(before, e);
    if i < |before.sessions| {
      RemoteMeansThroughStopping(w, events[..n], i);
      if Open(before.sessions[i]) && Ended(Next(before, e).sessions[i]) {
        EndsForACause(before, e, i);
      }
      StillTells(before.sessions[i], Next(before, e).sessions[i], e, WasStopping(w, events[..n], i));
    } else {
      SessionGuarantees.AtMostOneNew(before, e);
      NeverBefore(w, events[..n], i);
    }
  }

  // A session that is not there yet has never been stopping.
  lemma {:induction false} NeverBefore(w: World, events: seq<Event>, i: nat)
    requires Fresh(w) && i >= |Run(w, events).sessions|
    ensures !WasStopping(w, events, i)
  {
    if events != [] {
      var n := |events| - 1;
      RunSound(w, events[..n]);
      NextSound(Run(w, events[..n]), events[n]);
      NeverBefore(w, events[..n], i);
    }
  }

  /* --------------------------------- provenance ------------------------------ */

  // The charger of this session said where its meter stood when it began.
  predicate Began(events: seq<Event>, s: Session) {
    s.startWh.Some? && s.startedAt.Some?
    && exists k :: 0 <= k < |events| && events[k] == Begin(s.charger, s.idTag, s.startWh.value, s.startedAt.value)
  }

  // A charger reported this reading for the session's transaction.
  predicate Reported(events: seq<Event>, s: Session, r: Reading) {
    s.transactionId.Some?
    && exists k :: 0 <= k < |events| && events[k] == Meter(s.transactionId.value, r.energyWh, r.at)
  }

  // A charger reported the closing value for the session's transaction.
  predicate Closed(events: seq<Event>, s: Session) {
    s.transactionId.Some? && s.endWh.Some? && s.endedAt.Some?
    && exists k :: 0 <= k < |events| && events[k] == Finish(s.transactionId.value, s.endWh.value, s.endedAt.value)
  }

  ghost predicate Sourced(events: seq<Event>, s: Session) {
    && (s.startWh.Some? ==> Began(events, s))
    && (forall r :: 0 <= r < |s.readings| ==> Reported(events, s, s.readings[r]))
    && (s.status == Completed ==> Closed(events, s))
  }

  // What one event may write, and that it wrote what it said.
  predicate WroteWhatItSaid(s: Session, s': Session, e: Event) {
    && (s'.startWh != s.startWh || s'.startedAt != s.startedAt ==>
          e.Begin? && s'.startWh.Some? && s'.startedAt.Some?
          && e == Begin(s'.charger, s'.idTag, s'.startWh.value, s'.startedAt.value))
    && (s'.readings != s.readings ==>
          e.Meter? && s'.transactionId == Some(e.transactionId)
            && s'.readings == s.readings + [Reading(e.at, e.energyWh)])
    && (s'.status == Completed && s.status != Completed ==>
          e.Finish? && s'.transactionId == Some(e.transactionId) && s'.endWh == Some(e.meterStop)
            && s'.endedAt == Some(e.at))
  }

  lemma EventWritesWhatItSays(w: World, e: Event, i: nat)
    requires i < |w.sessions|
    ensures i < |Next(w, e).sessions| && WroteWhatItSaid(w.sessions[i], Next(w, e).sessions[i], e)
  {
    match e
    case Begin(charger, idTag, meterStart, at) =>
    case Meter(tx, wh, at) =>
    case Finish(tx, meterStop, at) =>
    case _ => QuietEvents(w, e, i);
  }

  // Nothing metered, and nothing completed.
  predicate MeterStands(s: Session, s': Session) {
    s'.startWh == s.startWh && s'.startedAt == s.startedAt && s'.readings == s.readings
    && (s'.status == Completed ==> s.status == Completed)
  }

  lemma HardwareIsQuiet(w: World, e: Event, i: nat)
    requires i < |w.sessions| && (e.Disconnect? || e.PlugReport? || e.ChargerReport? || e.Timeout?)
    ensures i < |Next(w, e).sessions| && MeterStands(w.sessions[i], Next(w, e).sessions[i])
  {
  }

  // Every other event leaves the meter alone and completes nothing.
  lemma QuietEvents(w: World, e: Event, i: nat)
    requires i < |w.sessions| && !e.Begin? && !e.Meter? && !e.Finish?
    ensures i < |Next(w, e).sessions| && MeterStands(w.sessions[i], Next(w, e).sessions[i])
  {
    if e.Disconnect? || e.PlugReport? || e.ChargerReport? || e.Timeout? {
      HardwareIsQuiet(w, e, i);
    }
  }

  lemma StillSourced(events: seq<Event>, e: Event, s: Session, s': Session)
    requires Sourced(events, s) && Evolves(s, s') && WroteWhatItSaid(s, s', e)
    ensures Sourced(events + [e], s')
  {
    var more := events + [e];
    assert more[|events|] == e;
    assert forall k :: 0 <= k < |events| ==> more[k] == events[k];
    if s'.startWh.Some? && s'.startWh == s.startWh && s'.startedAt == s.startedAt {
      var k :| 0 <= k < |events| && events[k] == Begin(s.charger, s.idTag, s.startWh.value, s.startedAt.value);
      assert more[k] == Begin(s'.charger, s'.idTag, s'.startWh.value, s'.startedAt.value);
    }
    forall r | 0 <= r < |s'.readings| ensures Reported(more, s', s'.readings[r]) {
      if r < |s.readings| {
        assert s'.readings[r] == s.readings[r] && Reported(events, s, s.readings[r]);
        var k :| 0 <= k < |events|
          && events[k] == Meter(s.transactionId.value, s.readings[r].energyWh, s.readings[r].at);
        assert more[k] == events[k];
      }
    }
    if s.status == Completed {
      var k :| 0 <= k < |events| && events[k] == Finish(s.transactionId.value, s.endWh.value, s.endedAt.value);
      assert more[k] == events[k];
    }
  }

  // In every run each session's starting value is what its own charger reported under its tag, and its
  // readings and closing value are what was reported under its transaction.
  lemma {:induction false} EveryFigureWasReported(w: World, events: seq<Event>, i: nat)
    requires Fresh(w) && i < |Run(w, events).sessions|
    ensures Sourced(events, Run(w, events).sessions[i])
  {
    var n := |events| - 1;
    var before, e := Run(w, events[..n]), events[n];
    assert events == events[..n] + [e];
    RunSound(w, events[..n]);
    NextSound(before, e);
    if i < |before.sessions| {
      EveryFigureWasReported(w, events[..n], i);
      EventWritesWhatItSays(before, e, i);
      StillSourced(events[..n], e, before.sessions[i], Run(w, events).sessions[i]);
    } else {
      SessionGuarantees.AtMostOneNew(before, e);
      assert SessionSound(Run(w, events).sessions[i]);
    }
  }

  // So a completed session is billed for the difference between the two values reported for it, at the
  // price in force when it was requested.
  lemma BilledAsReported(w: World, events: seq<Event>, i: nat) returns (begun: nat, finished: nat, requested: nat)
    requires Fresh(w) && i < |Run(w, events).sessions| && Run(w, events).sessions[i].status == Completed
    ensures var s := Run(w, events).sessions[i];
            && begun < |events| && events[begun].Begin? && events[begun].idTag == s.idTag
               && events[begun].charger == s.charger
            && finished < |events| && events[finished].Finish?
               && Some(events[finished].transactionId) == s.transactionId
            && requested < |events| && events[requested].Start? && SessionGuarantees.CreatedBy(w, events, requested, i)
            && var price := PriceInForce(Run(w, events[..requested]).tariffs, s.company);
            && price.Some?
            && s.amount == Some(CalculateAmountPaise(
                 ConsumedWh(Some(events[begun].meterStart), Some(events[finished].meterStop)), price.value))
  {
    var s := Run(w, events).sessions[i];
    RunSound(w, events);
    assert SessionSound(s);
    EveryFigureWasReported(w, events, i);
    begun :| begun < |events| && events[begun] == Begin(s.charger, s.idTag, s.startWh.value, s.startedAt.value);
    finished :| finished < |events|
      && events[finished] == Finish(s.transactionId.value, s.endWh.value, s.endedAt.value);
    requested := SessionGuarantees.RateIsPriceAtCreation(w, events, i);
  }
}
