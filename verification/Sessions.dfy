// Charging sessions as the handlers change them: one function per handler, from the state it finds
// to the state it leaves. A handler reads a document, changes it and saves it; each is one step.

module Sessions {
  import opened Options
  import opened Money
  import opened Tariffs

  datatype Status = Initiating | Active | Stopping | Completed | Failed
  datatype StopReason = Remote | Local | ChargerDisconnected | StartTimeout | Rejected | HardwareFault
  datatype PlugStatus = Available | Occupied | Faulted | Unavailable | Preparing | Charging | Finishing
  datatype Hardware = Operative | HardwareFaulted | OutOfService

  // meterReading.model.ts; a session's readings in the order they were stored.
  datatype Reading = Reading(at: int, energyWh: real)

  datatype Session = Session(
    user: Id, company: Id, charger: Id, connector: Id, idTag: string,
    status: Status, transactionId: Option<nat>,
    requestedAt: int, startedAt: Option<int>, endedAt: Option<int>,
    startWh: Option<real>, lastWh: Option<real>, endWh: Option<real>, energyWh: real,
    rate: Option<int>, amount: Option<nat>, paid: bool, stopReason: Option<StopReason>,
    readings: seq<Reading>)

  datatype Plug = Plug(charger: Id, number: int, status: PlugStatus)
  datatype Charger = Charger(company: Id, hardware: Hardware, faultReportedAt: Option<int>)

  datatype World = World(
    sessions: seq<Session>, plugs: seq<Plug>, chargers: seq<Charger>, tariffs: seq<Tariff>, nextTransactionId: nat)

  predicate Open(s: Session) {
    s.status == Initiating || s.status == Active || s.status == Stopping
  }

  predicate Ended(s: Session) {
    s.status == Completed || s.status == Failed
  }

  /* ---------------------------------- pricing -------------------------------- */

  // The pre-save hook: an ended, unpriced session is priced; a free one is paid on the spot.
  function ComputeAmount(s: Session): Session {
    if !Ended(s) || s.amount.Some? || s.rate.None? then s
    else
      var amount := CalculateAmountPaise(s.energyWh, s.rate.value);
      s.(amount := Some(amount), paid := s.paid || amount == 0)
  }

  // Energy is the difference of two readings of one counter, to hundredths, and never negative.
  function ConsumedWh(startWh: Option<real>, endWh: Option<real>): (energy: real)
    ensures energy >= 0.0 && InHundredths(energy)
    ensures startWh.Some? && endWh.Some? && endWh.value >= startWh.value ==>
              -0.005 <= endWh.value - startWh.value - energy < 0.005
    ensures startWh.None? || endWh.None? || endWh.value <= startWh.value ==> energy == 0.0
  {
    if startWh.None? || endWh.None? || endWh.value <= startWh.value then 0.0
    else ToHundredths(endWh.value - startWh.value)
  }

  /* --------------------------------- lookups --------------------------------- */

  function FindTag(sessions: seq<Session>, idTag: string): (found: Option<Id>)
    ensures found.Some? ==> found.value < |sessions| && sessions[found.value].idTag == idTag
    ensures found.None? ==> forall i :: 0 <= i < |sessions| ==> sessions[i].idTag != idTag
  {
    if sessions == [] then None
    else
      var n := |sessions| - 1;
      if sessions[n].idTag == idTag then Some(n) else FindTag(sessions[..n], idTag)
  }

  function FindOpenTransaction(sessions: seq<Session>, transactionId: nat): (found: Option<Id>)
    ensures found.Some? ==>
              found.value < |sessions| && sessions[found.value].transactionId == Some(transactionId)
                && Open(sessions[found.value])
    ensures found.None? ==>
              forall i :: 0 <= i < |sessions| ==>
                !(sessions[i].transactionId == Some(transactionId) && Open(sessions[i]))
  {
    if sessions == [] then None
    else
      var n := |sessions| - 1;
      if sessions[n].transactionId == Some(transactionId) && Open(sessions[n]) then Some(n)
      else FindOpenTransaction(sessions[..n], transactionId)
  }

  predicate TransactionTaken(sessions: seq<Session>, transactionId: nat) {
    exists i :: 0 <= i < |sessions| && sessions[i].transactionId == Some(transactionId)
  }

  function HighestTransactionId(sessions: seq<Session>): (highest: nat)
    ensures forall i :: 0 <= i < |sessions| && sessions[i].transactionId.Some? ==>
              sessions[i].transactionId.value <= highest
    ensures highest > 0 ==> TransactionTaken(sessions, highest)
  {
    if sessions == [] then 0
    else
      var n := |sessions| - 1;
      var before := HighestTransactionId(sessions[..n]);
      if sessions[n].transactionId.Some? && sessions[n].transactionId.value > before
      then sessions[n].transactionId.value else before
  }

  // The two indexes that keep one open session per connector and per driver.
  predicate Reserved(sessions: seq<Session>, connector: Id) {
    exists i :: 0 <= i < |sessions| && Open(sessions[i]) && sessions[i].connector == connector
  }

  predicate ChargingAlready(sessions: seq<Session>, user: Id) {
    exists i :: 0 <= i < |sessions| && Open(sessions[i]) && sessions[i].user == user
  }

  /* ----------------------------- a person acted ------------------------------ */

  // assessStartability, with what a human and the connection say passed in.
  predicate Startable(plug: PlugStatus, inService: bool, online: bool, hardware: Hardware) {
    && inService && online && hardware == Operative
    && plug != Faulted && plug != Unavailable && plug != Charging && plug != Occupied
  }

  // What startSession learns from elsewhere.
  datatype Facts = Facts(inService: bool, online: bool, connected: bool, inArrears: bool)

  // Up to the await: checks, then the insert that reserves the connector.
  function StartSession(w: World, user: Id, connector: Id, idTag: string, facts: Facts, now: int): World {
    if ChargingAlready(w.sessions, user) || connector >= |w.plugs| then w
    else
      var plug := w.plugs[connector];
      if plug.charger >= |w.chargers| then w
      else
        var charger := w.chargers[plug.charger];
        var price := PriceInForce(w.tariffs, charger.company);
        if !Startable(plug.status, facts.inService, facts.online, charger.hardware) || !facts.connected
           || price.None? || facts.inArrears
        then w
        else if Reserved(w.sessions, connector) || FindTag(w.sessions, idTag).Some? then w
        else
          w.(sessions := w.sessions +
            [Session(user, charger.company, plug.charger, connector, idTag, Initiating, None, now, None, None,
                     None, None, None, 0.0, price, None, false, None, [])])
  }

  // markFailed, for a session still initiating.
  function MarkFailed(s: Session, reason: StopReason, now: int): Session {
    if s.status != Initiating then s
    else ComputeAmount(s.(status := Failed, endedAt := Some(now), stopReason := Some(reason)))
  }

  // The charger refused the start, or did not answer.
  function StartRefused(w: World, session: Id, reason: StopReason, now: int): World {
    if session >= |w.sessions| then w
    else w.(sessions := w.sessions[session := MarkFailed(w.sessions[session], reason, now)])
  }

  // stopSession. `connected`: a socket is registered. `accepted`: the charger's answer.
  function StopSession(w: World, session: Id, connected: bool, accepted: bool, now: int): World {
    if session >= |w.sessions| then w
    else
      var s := w.sessions[session];
      match s.status
      case Completed => w
      case Failed => w
      case Stopping => w
      case Initiating => w.(sessions := w.sessions[session := MarkFailed(s, StartTimeout, now)])
      case Active =>
        if !connected then w.(sessions := w.sessions[session := FailSession(s, ChargerDisconnected, now)])
        else if s.transactionId.None? || !accepted then w
        else w.(sessions := w.sessions[session := s.(status := Stopping)])
  }

  /* ----------------------------- the charger spoke --------------------------- */

  function LatestReading(readings: seq<Reading>): (latest: Option<int>)
    ensures latest.None? <==> readings == []
    ensures latest.Some? ==> forall i :: 0 <= i < |readings| ==> readings[i].at <= latest.value
    ensures latest.Some? ==> exists i :: 0 <= i < |readings| && readings[i].at == latest.value
  {
    if readings == [] then None
    else
      var n := |readings| - 1;
      var before := LatestReading(readings[..n]);
      if before.None? || before.value < readings[n].at then Some(readings[n].at) else before
  }

  function Earlier(a: int, b: int): int {
    if a < b then a else b
  }

  // The last sign that a session was charging: the latest of its readings and its start, but never after now;
  // and now, if it left no sign at all.
  predicate LastSign(s: Session, at: int, now: int) {
    && (s.startedAt.Some? ==> at >= Earlier(s.startedAt.value, now))
    && (forall i :: 0 <= i < |s.readings| ==> at >= Earlier(s.readings[i].at, now))
    && if s.startedAt.None? && s.readings == [] then at == now
       else || (s.startedAt.Some? && at == Earlier(s.startedAt.value, now))
            || exists i :: 0 <= i < |s.readings| && at == Earlier(s.readings[i].at, now)
  }

  // lastEvidenceOfCharging.
  function LastEvidence(s: Session, now: int): (at: int)
    ensures at <= now && LastSign(s, at, now)
    ensures s.startedAt.Some? && s.startedAt.value <= now ==> at >= s.startedAt.value
    ensures forall i :: 0 <= i < |s.readings| && s.readings[i].at <= now ==> at >= s.readings[i].at
  {
    var latest := LatestReading(s.readings);
    var candidate := if latest.Some? then latest.value else if s.startedAt.Some? then s.startedAt.value else now;
    var start := if s.startedAt.Some? then s.startedAt.value else candidate;
    var end := if start > candidate then start else candidate;
    if end < now then end else now
  }

  // The allocator: one more than the last; moved past the highest issued when that is taken.
  function AllocateFor(sessions: seq<Session>, next: nat): (id: nat)
    ensures id > next && !TransactionTaken(sessions, id)
    ensures !TransactionTaken(sessions, next + 1) ==> id == next + 1
    ensures TransactionTaken(sessions, next + 1) ==>
              id == next + 2 || (id > next + 2 && TransactionTaken(sessions, id - 1))
    ensures TransactionTaken(sessions, next + 1) ==>
              forall i :: 0 <= i < |sessions| && sessions[i].transactionId.Some? ==>
                sessions[i].transactionId.value < id
  {
    if !TransactionTaken(sessions, next + 1) then next + 1
    else
      var highest := HighestTransactionId(sessions);
      if highest > next + 1 then highest + 1 else next + 2
  }

  // A start is accepted once by the session of its tag, and again whenever the charger repeats it.
  predicate StartAccepted(w: World, charger: Id, idTag: string) {
    match FindTag(w.sessions, idTag)
    case None => false
    case Some(i) =>
      var s := w.sessions[i];
      (s.status == Active && s.transactionId.Some?) || (s.status == Initiating && s.charger == charger)
  }

  // handleStartTransaction: a refused start still uses up a throwaway id.
  function StartTransaction(w: World, charger: Id, idTag: string, meterStart: real, at: int): World {
    match FindTag(w.sessions, idTag)
    case None => w.(nextTransactionId := w.nextTransactionId + 1)
    case Some(i) =>
      var s := w.sessions[i];
      if s.status == Active && s.transactionId.Some? then w
      else if s.status != Initiating || s.charger != charger then w.(nextTransactionId := w.nextTransactionId + 1)
      else
        var id := AllocateFor(w.sessions, w.nextTransactionId);
        var started := s.(status := Active, transactionId := Some(id), startedAt := Some(at),
                          startWh := Some(meterStart), lastWh := Some(meterStart));
        w.(sessions := w.sessions[i := started], nextTransactionId := id)
  }

  // onMeterValues, on the session's document.
  function StoreReading(s: Session, energyWh: real, at: int): Session {
    var previous := if s.lastWh.Some? then s.lastWh.value else if s.startWh.Some? then s.startWh.value else 0.0;
    if energyWh < 0.0 || energyWh <= previous || exists i :: 0 <= i < |s.readings| && s.readings[i].at == at then s
    else
      s.(readings := s.readings + [Reading(at, energyWh)], lastWh := Some(energyWh),
         energyWh := ConsumedWh(s.startWh, Some(energyWh)))
  }

  function MeterValues(w: World, transactionId: nat, energyWh: real, at: int): World {
    match FindOpenTransaction(w.sessions, transactionId)
    case None => w
    case Some(i) => w.(sessions := w.sessions[i := StoreReading(w.sessions[i], energyWh, at)])
  }

  function CompleteSession(s: Session, meterStop: real, at: int): Session {
    ComputeAmount(s.(
      status := Completed, endedAt := Some(at), endWh := Some(meterStop), lastWh := Some(meterStop),
      energyWh := ConsumedWh(s.startWh, Some(meterStop)),
      stopReason := Some(if s.status == Stopping then Remote else Local)))
  }

  function StopTransaction(w: World, transactionId: nat, meterStop: real, at: int): World {
    match FindOpenTransaction(w.sessions, transactionId)
    case None => w
    case Some(i) => w.(sessions := w.sessions[i := CompleteSession(w.sessions[i], meterStop, at)])
  }

  // The shared body of the failure paths.
  function FailSession(s: Session, reason: StopReason, now: int): Session {
    ComputeAmount(s.(
      status := Failed, endedAt := Some(LastEvidence(s, now)), endWh := s.lastWh,
      energyWh := ConsumedWh(s.startWh, s.lastWh), stopReason := Some(reason)))
  }

  function OnConnector(connector: Id): Session -> bool {
    (s: Session) => Open(s) && s.connector == connector
  }

  function OnCharger(charger: Id): Session -> bool {
    (s: Session) => Open(s) && s.charger == charger
  }

  function Unconfirmed(cutoff: int): Session -> bool {
    (s: Session) => s.status == Initiating && s.requestedAt < cutoff
  }

  function EndAll(sessions: seq<Session>, which: Session -> bool, end: Session -> Session): (ended: seq<Session>)
    ensures |ended| == |sessions|
    ensures forall i :: 0 <= i < |sessions| ==> ended[i] == if which(sessions[i]) then end(sessions[i]) else sessions[i]
  {
    seq(|sessions|, i requires 0 <= i < |sessions| => if which(sessions[i]) then end(sessions[i]) else sessions[i])
  }

  function Failing(reason: StopReason, now: int): Session -> Session {
    (s: Session) => FailSession(s, reason, now)
  }

  function TimingOut(now: int): Session -> Session {
    (s: Session) => MarkFailed(s, StartTimeout, now)
  }

  predicate InFlight(status: PlugStatus) {
    status == Preparing || status == Charging || status == Finishing
  }

  // A charger that has gone releases the plugs it left mid-flight.
  function ReleasePlugs(plugs: seq<Plug>, charger: Id): (released: seq<Plug>)
    ensures |released| == |plugs|
    ensures forall i :: 0 <= i < |plugs| ==>
              released[i] == if plugs[i].charger == charger && InFlight(plugs[i].status)
                             then plugs[i].(status := Unavailable) else plugs[i]
  {
    seq(|plugs|, i requires 0 <= i < |plugs| =>
      if plugs[i].charger == charger && InFlight(plugs[i].status) then plugs[i].(status := Unavailable) else plugs[i])
  }

  function FailOnCharger(w: World, charger: Id, reason: StopReason, now: int): World {
    w.(sessions := EndAll(w.sessions, OnCharger(charger), Failing(reason, now)),
       plugs := ReleasePlugs(w.plugs, charger))
  }

  function FailOnConnector(w: World, connector: Id, reason: StopReason, now: int): World {
    w.(sessions := EndAll(w.sessions, OnConnector(connector), Failing(reason, now)))
  }

  function SweepUnconfirmed(w: World, timeout: int, now: int): World {
    w.(sessions := EndAll(w.sessions, Unconfirmed(now - timeout), TimingOut(now)))
  }

  /* -------------------------------- hardware --------------------------------- */

  function FindPlug(plugs: seq<Plug>, charger: Id, number: int): (found: Option<Id>)
    ensures found.Some? ==>
              found.value < |plugs| && plugs[found.value].charger == charger && plugs[found.value].number == number
    ensures found.None? ==> forall i :: 0 <= i < |plugs| ==> !(plugs[i].charger == charger && plugs[i].number == number)
  {
    if plugs == [] then None
    else
      var n := |plugs| - 1;
      if plugs[n].charger == charger && plugs[n].number == number then Some(n)
      else FindPlug(plugs[..n], charger, number)
  }

  // handleStatusNotification for a plug: a fresh fault ends the session on that plug.
  function PlugStatusChanged(w: World, charger: Id, number: int, status: PlugStatus, now: int): World {
    match FindPlug(w.plugs, charger, number)
    case None => w
    case Some(c) =>
      var written := w.(plugs := w.plugs[c := w.plugs[c].(status := status)]);
      if status == Faulted && w.plugs[c].status != Faulted then FailOnConnector(written, c, HardwareFault, now)
      else written
  }

  // handleChargePointStatus: connector 0, the machine about itself. None is a status that makes no
  // sense for a whole machine.
  function ChargePointStatus(w: World, charger: Id, reported: Option<Hardware>, now: int): World {
    if charger >= |w.chargers| || reported.None? || w.chargers[charger].hardware == reported.value then w
    else
      var written := w.(chargers := w.chargers[charger := w.chargers[charger].(
        hardware := reported.value, faultReportedAt := if reported.value == Operative then None else Some(now))]);
      if reported.value == HardwareFaulted then FailOnCharger(written, charger, HardwareFault, now) else written
  }

  /* ----------------------------------- events -------------------------------- */

  datatype Event =
    | Start(user: Id, connector: Id, idTag: string, facts: Facts, now: int)
    | Refuse(session: Id, reason: StopReason, now: int)
    | Stop(session: Id, connected: bool, accepted: bool, now: int)
    | Begin(charger: Id, idTag: string, meterStart: real, at: int)
    | Meter(transactionId: nat, energyWh: real, at: int)
    | Finish(transactionId: nat, meterStop: real, at: int)
    | Disconnect(charger: Id, now: int)
    | PlugReport(charger: Id, number: int, plugStatus: PlugStatus, now: int)
    | ChargerReport(charger: Id, reported: Option<Hardware>, now: int)
    | Timeout(timeout: int, now: int)
    | NewTariff(company: Id, price: int)
    | EditTariff(tariff: Id, price: int)
    | SwitchTariff(tariff: Id, on: bool)
    | Restart(counter: nat)

  // Restart leaves the in-memory counter anywhere: a fresh process, seeded or not, or one that
  // another process on the same database has overtaken.
  function Next(w: World, e: Event): World {
    match e
    case Start(user, connector, idTag, facts, now) => StartSession(w, user, connector, idTag, facts, now)
    case Refuse(session, reason, now) => StartRefused(w, session, reason, now)
    case Stop(session, connected, accepted, now) => StopSession(w, session, connected, accepted, now)
    case Begin(charger, idTag, meterStart, at) => StartTransaction(w, charger, idTag, meterStart, at)
    case Meter(tx, wh, at) => MeterValues(w, tx, wh, at)
    case Finish(tx, meterStop, at) => StopTransaction(w, tx, meterStop, at)
    case Disconnect(charger, now) => FailOnCharger(w, charger, ChargerDisconnected, now)
    case PlugReport(charger, number, status, now) => PlugStatusChanged(w, charger, number, status, now)
    case ChargerReport(charger, reported, now) => ChargePointStatus(w, charger, reported, now)
    case Timeout(timeout, now) => SweepUnconfirmed(w, timeout, now)
    case NewTariff(company, price) => w.(tariffs := Create(w.tariffs, company, price))
    case EditTariff(t, price) => w.(tariffs := Update(w.tariffs, t, price))
    case SwitchTariff(t, on) => w.(tariffs := if on then Activate(w.tariffs, t) else Deactivate(w.tariffs, t))
    case Restart(counter) => w.(nextTransactionId := counter)
  }

  function Run(w: World, events: seq<Event>): World {
    if events == [] then w else Next(Run(w, events[..|events| - 1]), events[|events| - 1])
  }
}
