// The OCPP gateway: charger sockets and frames on one side, the session handlers on the other, and
// the registry's bookkeeping between them.

module Gateway {
  import opened Options
  import opened Sessions
  import opened SessionRuns
  import SessionStore
  import R = Registry

  datatype Gate = Gate(world: World, lines: R.Lines)

  // Frames carry an optional transaction id and an optional connector, as the protocol allows. `at` is the
  // time the charger wrote on the frame, which may be long past; `now` is the clock of the server. Alive is
  // any frame that asks nothing of the session handlers; status reports come as their session events.
  datatype Signal =
    | Connect(charger: nat, socket: nat, now: int)
    | Close(charger: nat, socket: nat, now: int)
    | Silence(charger: nat, cutoff: int, now: int)
    | StartFrame(charger: nat, connector: int, idTag: string, meterStart: real, at: int, now: int)
    | MeterFrame(charger: nat, transaction: Option<nat>, plug: Option<int>, energyWh: real, at: int, now: int)
    | StopFrame(charger: nat, transaction: Option<nat>, plug: Option<int>, meterStop: real, at: int, now: int)
    | Alive(charger: nat, now: int)
    | Elsewhere(event: Event)
    | Reboot(counter: nat)

  predicate Connected(lines: R.Lines, charger: nat, socket: nat) {
    charger in lines && lines[charger].socket == socket
  }

  predicate Stale(lines: R.Lines, charger: nat, cutoff: int) {
    charger in lines && lines[charger].heardAt < cutoff
  }

  // Which transaction a frame is about: the one it names, else the one on its connector.
  function Resolve(lines: R.Lines, charger: nat, transaction: Option<nat>, plug: Option<int>): Option<nat> {
    if transaction.Some? then transaction
    else if plug.None? then None
    else
      match R.SlotOn(lines, charger, plug.value)
      case None => None
      case Some(t) => Some(t.transactionId)
  }

  // The answer to a StartTransaction: the id it was accepted under.
  function Accepted(w: World, charger: nat, idTag: string, meterStart: real, at: int): Option<nat> {
    if StartAccepted(w, charger, idTag)
    then StartTransaction(w, charger, idTag, meterStart, at).sessions[FindTag(w.sessions, idTag).value].transactionId
    else None
  }

  // The connector a stopped transaction was on: by its slot, else as the frame says.
  function StoppedOn(lines: R.Lines, charger: nat, transaction: Option<nat>, plug: Option<int>): Option<int> {
    var slot := if transaction.Some? && charger in lines
                then R.FindTransaction(lines[charger].slots, transaction.value) else None;
    if slot.Some? then Some(slot.value.connector) else plug
  }

  // A request to start or stop looks its charger up in the registry: that is what being connected means.
  function Grounded(g: Gate, e: Event): Event {
    match e
    case Start(user, connector, idTag, facts, now) =>
      var live := connector < |g.world.plugs| && g.world.plugs[connector].charger in g.lines;
      Start(user, connector, idTag, facts.(connected := live), now)
    case Stop(session, _, accepted, now) =>
      var live := session < |g.world.sessions| && g.world.sessions[session].charger in g.lines;
      Stop(session, live, accepted, now)
    case _ => e
  }

  // What a signal asks of the session handlers.
  function Events(g: Gate, signal: Signal): seq<Event> {
    match signal
    case Connect(_, _, _) => []
    case Close(c, socket, now) => if Connected(g.lines, c, socket) then [Disconnect(c, now)] else []
    case Silence(c, cutoff, now) => if Stale(g.lines, c, cutoff) then [Disconnect(c, now)] else []
    case StartFrame(c, _, idTag, meterStart, at, _) => [Begin(c, idTag, meterStart, at)]
    case MeterFrame(c, tx, plug, wh, at, _) =>
      var named := Resolve(g.lines, c, tx, plug);
      if named.Some? then [Meter(named.value, wh, at)] else []
    case StopFrame(c, tx, plug, wh, at, _) =>
      var named := Resolve(g.lines, c, tx, plug);
      if named.Some? then [Finish(named.value, wh, at)] else []
    case Alive(_, _) => []
    case Elsewhere(e) => if e.Begin? || e.Meter? || e.Finish? || e.Restart? then [] else [Grounded(g, e)]
    case Reboot(counter) => [Restart(counter)]
  }

  // What it asks of the registry. Any frame shows that its charger is alive.
  function Ops(g: Gate, signal: Signal): seq<R.Op> {
    match signal
    case Connect(c, socket, now) => [R.Register(c, socket, now)]
    case Close(c, socket, _) => [R.Remove(c, socket)]
    case Silence(c, cutoff, _) => if Stale(g.lines, c, cutoff) then [R.Remove(c, g.lines[c].socket)] else []
    case StartFrame(c, n, idTag, meterStart, at, now) =>
      var accepted := Accepted(g.world, c, idTag, meterStart, at);
      [R.Touch(c, now)] + if accepted.Some? then [R.Put(c, R.Transaction(accepted.value, n, idTag, meterStart))] else []
    case MeterFrame(c, _, _, _, _, now) => [R.Touch(c, now)]
    case StopFrame(c, tx, plug, _, _, now) =>
      var stopped := StoppedOn(g.lines, c, Resolve(g.lines, c, tx, plug), plug);
      [R.Touch(c, now)] + if stopped.Some? then [R.Drop(c, stopped.value)] else []
    case Alive(c, now) => [R.Touch(c, now)]
    case Elsewhere(e) => if e.PlugReport? || e.ChargerReport? then [R.Touch(e.charger, e.now)] else []
    case Reboot(_) => []
  }

  function ApplyAll(lines: R.Lines, ops: seq<R.Op>): R.Lines {
    if ops == [] then lines else R.Apply(ApplyAll(lines, ops[..|ops| - 1]), ops[|ops| - 1])
  }

  // A reboot forgets every socket; the database keeps the sessions.
  function Receive(g: Gate, signal: Signal): Gate {
    Gate(Run(g.world, Events(g, signal)), if signal.Reboot? then map[] else ApplyAll(g.lines, Ops(g, signal)))
  }

  function ReceiveAll(g: Gate, signals: seq<Signal>): Gate {
    if signals == [] then g else Receive(ReceiveAll(g, signals[..|signals| - 1]), signals[|signals| - 1])
  }

  /* ------------------------- the gateway adds no behaviour -------------------- */

  // Every session event a run of signals gives rise to, in order.
  function EventsOf(g: Gate, signals: seq<Signal>): seq<Event> {
    if signals == [] then []
    else
      var before := signals[..|signals| - 1];
      EventsOf(g, before) + Events(ReceiveAll(g, before), signals[|signals| - 1])
  }

  // Every registry operation since the last reboot, in order.
  function OpsOf(g: Gate, signals: seq<Signal>): seq<R.Op> {
    if signals == [] then []
    else
      var before, last := signals[..|signals| - 1], signals[|signals| - 1];
      if last.Reboot? then [] else OpsOf(g, before) + Ops(ReceiveAll(g, before), last)
  }

  lemma {:induction false} RunAppend(w: World, events: seq<Event>, more: seq<Event>)
    ensures Run(w, events + more) == Run(Run(w, events), more)
  {
    if more == [] {
      assert events + more == events;
    } else {
      RunAppend(w, events, more[..|more| - 1]);
      assert (events + more)[..|events + more| - 1] == events + more[..|more| - 1];
    }
  }

  lemma {:induction false} HistoryAppend(ops: seq<R.Op>, more: seq<R.Op>)
    ensures R.History(ops + more) == ApplyAll(R.History(ops), more)
  {
    if more == [] {
      assert ops + more == ops;
    } else {
      HistoryAppend(ops, more[..|more| - 1]);
      assert (ops + more)[..|ops + more| - 1] == ops + more[..|more| - 1];
    }
  }

  // Whatever chargers send, the sessions go through a run of session events and the registry through
  // a run of its own operations; so every guarantee about those runs holds behind the gateway.
  lemma {:induction false} GatewayRefines(w: World, signals: seq<Signal>)
    ensures var g := Gate(w, map[]);
            && ReceiveAll(g, signals).world == Run(w, EventsOf(g, signals))
            && ReceiveAll(g, signals).lines == R.History(OpsOf(g, signals))
  {
    if signals != [] {
      var g := Gate(w, map[]);
      var before, last := signals[..|signals| - 1], signals[|signals| - 1];
      GatewayRefines(w, before);
      RunAppend(w, EventsOf(g, before), Events(ReceiveAll(g, before), last));
      HistoryAppend(OpsOf(g, before), Ops(ReceiveAll(g, before), last));
    }
  }

  /* -------------------------------- connectivity ----------------------------- */

  // A charger's sessions are failed exactly when it goes from connected to not: never by a reconnect,
  // and never by the close of a socket that a reconnect has already replaced.
  lemma DisconnectExactlyWhenLost(g: Gate, signal: Signal)
    requires signal.Connect? || signal.Close? || signal.Silence?
    ensures var g' := Receive(g, signal);
            var lost := signal.charger in g.lines && signal.charger !in g'.lines;
            && g'.world == (if lost then FailOnCharger(g.world, signal.charger, ChargerDisconnected, signal.now)
                            else g.world)
            && (forall c :: c != signal.charger ==> (c in g'.lines <==> c in g.lines))
            && (forall c :: c in g.lines && c in g'.lines && c != signal.charger ==> g'.lines[c] == g.lines[c])
            && (lost ==> forall i :: 0 <= i < |g'.world.sessions| && g'.world.sessions[i].charger == signal.charger ==>
                           !Open(g'.world.sessions[i]))
  {
    var events, ops := Events(g, signal), Ops(g, signal);
    assert |events| <= 1 && |ops| <= 1;
    if |events| == 1 {
      assert events[..0] == [];
      assert Run(g.world, events) == Next(g.world, events[0]);
    }
    if |ops| == 1 {
      assert ops[..0] == [];
      assert ApplyAll(g.lines, ops) == R.Apply(g.lines, ops[0]);
    }
  }

  lemma SilenceDropsTheUnheard(g: Gate, charger: nat, cutoff: int, now: int)
    requires charger in g.lines
    ensures charger in Receive(g, Silence(charger, cutoff, now)).lines <==> g.lines[charger].heardAt >= cutoff
  {
    OneOp(g.lines, R.Remove(charger, g.lines[charger].socket));
  }

  // In every run a charger is dropped for silence only if its last frame, or its registration, came
  // before the cutoff.
  lemma OnlyTheSilentAreDropped(w: World, signals: seq<Signal>, charger: nat, cutoff: int, now: int) returns (m: nat)
    requires charger in ReceiveAll(Gate(w, map[]), signals).lines
    ensures var g := ReceiveAll(Gate(w, map[]), signals); var ops := OpsOf(Gate(w, map[]), signals);
            && R.LastHeard(ops, m, charger)
            && (charger in Receive(g, Silence(charger, cutoff, now)).lines <==> ops[m].now >= cutoff)
  {
    GatewayRefines(w, signals);
    m := R.HeardAtIsLastFrame(OpsOf(Gate(w, map[]), signals), charger);
    SilenceDropsTheUnheard(ReceiveAll(Gate(w, map[]), signals), charger, cutoff, now);
  }

  predicate IsFrame(signal: Signal) {
    signal.StartFrame? || signal.MeterFrame? || signal.StopFrame? || signal.Alive?
  }

  lemma FrameIsHeard(g: Gate, frame: Signal)
    requires IsFrame(frame) && frame.charger in g.lines
    ensures var lines := Receive(g, frame).lines; frame.charger in lines && lines[frame.charger].heardAt == frame.now
  {
    match frame
    case StartFrame(c, n, idTag, wh, at, now) => StartFrameEffect(g, c, n, idTag, wh, at, now);
    case MeterFrame(c, tx, plug, wh, at, now) => MeterFrameEffect(g, c, tx, plug, wh, at, now);
    case StopFrame(c, tx, plug, wh, at, now) => StopFrameEffect(g, c, tx, plug, wh, at, now);
    case Alive(c, now) => OneOp(g.lines, R.Touch(c, now));
  }

  // Any frame keeps its charger connected, however old the time written on it: what counts is when it
  // arrived. So a backlog replayed after an outage never makes a live charger look silent.
  lemma BacklogShowsLife(g: Gate, frame: Signal, cutoff: int, later: int)
    requires IsFrame(frame) && frame.charger in g.lines
    ensures frame.charger in Receive(Receive(g, frame), Silence(frame.charger, cutoff, later)).lines
            <==> frame.now >= cutoff
  {
    FrameIsHeard(g, frame);
    SilenceDropsTheUnheard(Receive(g, frame), frame.charger, cutoff, later);
  }

  // In every run: once a charger has registered a newer socket, the old one's close changes nothing.
  lemma OldSocketClosesQuietly(w: World, signals: seq<Signal>, k: nat, charger: nat, socket: nat, now: int)
    requires var ops := OpsOf(Gate(w, map[]), signals); R.Current(ops, k, charger) && ops[k].socket != socket
    ensures var g := ReceiveAll(Gate(w, map[]), signals); Receive(g, Close(charger, socket, now)) == g
  {
    var ops := OpsOf(Gate(w, map[]), signals);
    var g := ReceiveAll(Gate(w, map[]), signals);
    GatewayRefines(w, signals);
    R.LineIsLastRegistered(ops, charger);
    var op := [R.Remove(charger, socket)];
    assert op[..0] == [];
    assert ApplyAll(g.lines, op) == R.Apply(g.lines, op[0]);
  }

  /* ------------------------------ starts and stops --------------------------- */

  // In every run a session is created only for a charger that is connected: by a socket registered last
  // and not removed since.
  lemma StartNeedsALiveSocket(w: World, signals: seq<Signal>, signal: Signal) returns (k: nat)
    requires |Receive(ReceiveAll(Gate(w, map[]), signals), signal).world.sessions|
             > |ReceiveAll(Gate(w, map[]), signals).world.sessions|
    ensures var g := ReceiveAll(Gate(w, map[]), signals); var n := |g.world.sessions|;
            var s := Receive(g, signal).world.sessions[n];
            s.status == Initiating && s.charger in g.lines && R.Current(OpsOf(Gate(w, map[]), signals), k, s.charger)
  {
    var g := ReceiveAll(Gate(w, map[]), signals);
    NewOneFindsALine(g, signal);
    k := LineHasItsSocket(w, signals, Receive(g, signal).world.sessions[|g.world.sessions|].charger);
  }

  // Whoever has a line registered it last and was not removed since.
  lemma LineHasItsSocket(w: World, signals: seq<Signal>, charger: nat) returns (k: nat)
    requires charger in ReceiveAll(Gate(w, map[]), signals).lines
    ensures R.Current(OpsOf(Gate(w, map[]), signals), k, charger)
  {
    GatewayRefines(w, signals);
    R.LineIsLastRegistered(OpsOf(Gate(w, map[]), signals), charger);
    k :| R.Current(OpsOf(Gate(w, map[]), signals), k, charger);
  }

  lemma NewOneFindsALine(g: Gate, signal: Signal)
    requires |Receive(g, signal).world.sessions| > |g.world.sessions|
    ensures var s := Receive(g, signal).world.sessions[|g.world.sessions|];
            s.status == Initiating && s.charger in g.lines
  {
    var events := Events(g, signal);
    assert events != [] && events == [events[0]];
    OneEvent(g.world, events[0]);
    StartFindsALine(g, events[0]);
  }

  lemma StartFindsALine(g: Gate, e: Event)
    requires e.Start? ==> e == Grounded(g, e)
    requires |Next(g.world, e).sessions| > |g.world.sessions|
    ensures var s := Next(g.world, e).sessions[|g.world.sessions|]; s.status == Initiating && s.charger in g.lines
  {
  }

  // A stop request closes a running session as disconnected exactly when its charger has no line; with
  // one it is the charger that decides.
  lemma StopDisconnectsOnlyWithoutALine(g: Gate, session: nat, connected: bool, accepted: bool, now: int)
    requires session < |g.world.sessions| && Open(g.world.sessions[session])
    ensures var s := g.world.sessions[session];
            var sessions := Receive(g, Elsewhere(Stop(session, connected, accepted, now))).world.sessions;
            && |sessions| == |g.world.sessions|
            && var s' := sessions[session];
            && (s'.status == Failed && s'.stopReason == Some(ChargerDisconnected)
                <==> s.status == Active && s.charger !in g.lines)
            && (s.status == Active && s.charger in g.lines ==> s' == s || s' == s.(status := Stopping))
  {
    OneEvent(g.world, Grounded(g, Stop(session, connected, accepted, now)));
  }

  /* ---------------------------------- routing -------------------------------- */

  // A slot names a transaction that was issued to the session of the tag it was started with.
  ghost predicate Issued(sessions: seq<Session>, t: R.Transaction) {
    exists i :: 0 <= i < |sessions| && sessions[i].idTag == t.idTag
      && sessions[i].transactionId == Some(t.transactionId)
  }

  ghost predicate Routed(g: Gate) {
    forall c, t :: c in g.lines && t in g.lines[c].slots ==> Issued(g.world.sessions, t)
  }

  lemma {:induction false} RunEvolves(w: World, events: seq<Event>)
    requires WorldSound(w)
    ensures WorldSound(Run(w, events)) && |w.sessions| <= |Run(w, events).sessions|
    ensures forall i :: 0 <= i < |w.sessions| ==>
              && Run(w, events).sessions[i].idTag == w.sessions[i].idTag
              && (w.sessions[i].transactionId.Some? ==>
                    Run(w, events).sessions[i].transactionId == w.sessions[i].transactionId)
  {
    if events != [] {
      var before := events[..|events| - 1];
      RunEvolves(w, before);
      NextSound(Run(w, before), events[|events| - 1]);
      forall i | 0 <= i < |w.sessions| ensures Evolves(Run(w, before).sessions[i], Run(w, events).sessions[i]) {
      }
    }
  }

  lemma StillIssued(w: World, events: seq<Event>, t: R.Transaction)
    requires WorldSound(w) && Issued(w.sessions, t)
    ensures Issued(Run(w, events).sessions, t)
  {
    RunEvolves(w, events);
    var i :| 0 <= i < |w.sessions| && w.sessions[i].idTag == t.idTag
      && w.sessions[i].transactionId == Some(t.transactionId);
    assert Run(w, events).sessions[i].transactionId == Some(t.transactionId);
  }

  lemma ApplyRouted(sessions: seq<Session>, lines: R.Lines, op: R.Op)
    requires forall c, t :: c in lines && t in lines[c].slots ==> Issued(sessions, t)
    requires op.Put? ==> Issued(sessions, op.transaction)
    ensures forall c, t :: c in R.Apply(lines, op) && t in R.Apply(lines, op)[c].slots ==> Issued(sessions, t)
  {
    if op.Put? && op.charger in lines {
      R.SetKeeps(lines[op.charger].slots, op.transaction);
    } else if op.Drop? && op.charger in lines {
      R.ClearKeeps(lines[op.charger].slots, op.connector);
    }
  }

  lemma {:induction false} ApplyAllRouted(sessions: seq<Session>, lines: R.Lines, ops: seq<R.Op>)
    requires forall c, t :: c in lines && t in lines[c].slots ==> Issued(sessions, t)
    requires forall k :: 0 <= k < |ops| && ops[k].Put? ==> Issued(sessions, ops[k].transaction)
    ensures forall c, t :: c in ApplyAll(lines, ops) && t in ApplyAll(lines, ops)[c].slots ==> Issued(sessions, t)
  {
    if ops != [] {
      var before := ops[..|ops| - 1];
      assert forall k :: 0 <= k < |before| ==> before[k] == ops[k];
      ApplyAllRouted(sessions, lines, before);
      ApplyRouted(sessions, ApplyAll(lines, before), ops[|ops| - 1]);
    }
  }

  lemma ReceiveRouted(g: Gate, signal: Signal)
    requires WorldSound(g.world) && Routed(g)
    ensures WorldSound(Receive(g, signal).world) && Routed(Receive(g, signal))
  {
    var w' := Run(g.world, Events(g, signal));
    RunEvolves(g.world, Events(g, signal));
    forall c, t | c in g.lines && t in g.lines[c].slots ensures Issued(w'.sessions, t) {
      StillIssued(g.world, Events(g, signal), t);
    }
    if !signal.Reboot? {
      ApplyAllRouted(w'.sessions, g.lines, Ops(g, signal));
    }
  }

  lemma {:induction false} ReceiveAllRouted(w: World, signals: seq<Signal>)
    requires Fresh(w)
    ensures WorldSound(ReceiveAll(Gate(w, map[]), signals).world) && Routed(ReceiveAll(Gate(w, map[]), signals))
  {
    if signals != [] {
      ReceiveAllRouted(w, signals[..|signals| - 1]);
      ReceiveRouted(ReceiveAll(Gate(w, map[]), signals[..|signals| - 1]), signals[|signals| - 1]);
    }
  }

  // A reading without a transaction id goes where its connector's slot says, or nowhere.
  lemma FallbackStep(g: Gate, charger: nat, plug: int, energyWh: real, at: int, now: int, i: nat)
    requires WorldSound(g.world) && Routed(g) && i < |g.world.sessions|
    ensures var w' := Receive(g, MeterFrame(charger, None, Some(plug), energyWh, at, now)).world;
            var slot := R.SlotOn(g.lines, charger, plug);
            && |w'.sessions| == |g.world.sessions|
            && (w'.sessions[i] != g.world.sessions[i] ==>
                  && slot.Some? && slot.value.idTag == g.world.sessions[i].idTag
                  && Some(slot.value.transactionId) == g.world.sessions[i].transactionId && Open(g.world.sessions[i]))
  {
    var slot := R.SlotOn(g.lines, charger, plug);
    if slot.Some? {
      OneEvent(g.world, Meter(slot.value.transactionId, energyWh, at));
      assert Issued(g.world.sessions, slot.value);
    }
  }

  // A reading that names only its connector can reach one session alone: the one whose tag that
  // connector was last started with on this connection, and only while it is open.
  lemma FallbackReachesItsOwnTag(w: World, signals: seq<Signal>, charger: nat, plug: int, energyWh: real,
                                 at: int, now: int, i: nat) returns (k: nat, m: nat)
    requires Fresh(w) && i < |ReceiveAll(Gate(w, map[]), signals).world.sessions|
    ensures var g := ReceiveAll(Gate(w, map[]), signals);
            var g' := Receive(g, MeterFrame(charger, None, Some(plug), energyWh, at, now));
            var ops := OpsOf(Gate(w, map[]), signals);
            && |g'.world.sessions| == |g.world.sessions|
            && (g'.world.sessions[i] != g.world.sessions[i] ==>
                  && R.Held(ops, k, m, charger, plug)
                  && ops[m].transaction.idTag == g.world.sessions[i].idTag
                  && Some(ops[m].transaction.transactionId) == g.world.sessions[i].transactionId
                  && Open(g.world.sessions[i]))
  {
    var g := ReceiveAll(Gate(w, map[]), signals);
    var ops := OpsOf(Gate(w, map[]), signals);
    ReceiveAllRouted(w, signals);
    GatewayRefines(w, signals);
    FallbackStep(g, charger, plug, energyWh, at, now, i);
    k, m := 0, 0;
    if R.SlotOn(R.History(ops), charger, plug).Some? {
      k, m := R.InSlotIsHeld(ops, charger, plug);
      R.HeldIsInSlot(ops, k, m, charger, plug);
    }
  }

  // A stop forgets one slot, on its own charger: the session still running on the plug beside it keeps
  // its own, as every other charger's do.
  lemma StopForgetsOneSlot(g: Gate, stop: Signal, charger: nat, plug: int)
    requires stop.StopFrame?
    ensures var named := Resolve(g.lines, stop.charger, stop.transaction, stop.plug);
            R.SlotOn(Receive(g, stop).lines, charger, plug)
            == if charger == stop.charger && StoppedOn(g.lines, charger, named, stop.plug) == Some(plug) then None
               else R.SlotOn(g.lines, charger, plug)
    ensures var named := Resolve(g.lines, stop.charger, stop.transaction, stop.plug);
            var slot := R.SlotOn(g.lines, charger, plug);
            slot.Some? && charger == stop.charger && StoppedOn(g.lines, charger, named, stop.plug) == Some(plug) ==>
              (named.Some? && exists t :: t in g.lines[charger].slots && t.connector == plug
                                          && t.transactionId == named.value)
              || stop.plug == Some(plug)
  {
    var named := Resolve(g.lines, stop.charger, stop.transaction, stop.plug);
    var stopped := StoppedOn(g.lines, stop.charger, named, stop.plug);
    StopFrameEffect(g, stop.charger, stop.transaction, stop.plug, stop.meterStop, stop.at, stop.now);
    if stopped.Some? && stop.charger in g.lines {
      R.ClearOneSlot(g.lines[stop.charger].slots, stopped.value, plug);
    }
  }

  /* --------------------------------- the gateway ----------------------------- */

  class GatewayServer {
    const registry: R.Connections
    const store: SessionStore.Store

    ghost function State(): Gate
      reads registry, registry.connections.Values, store
    {
      Gate(store.Snapshot(), registry.Contents())
    }

    constructor (store: SessionStore.Store)
      ensures this.store == store && fresh(registry) && registry.Valid() && registry.Contents() == map[]
    {
      this.store := store;
      registry := new R.Connections();
    }

    method OnConnection(charger: nat, socket: nat, now: int) returns (superseded: Option<nat>)
      requires registry.Valid()
      modifies registry
      ensures registry.Valid() && State() == Receive(old(State()), Connect(charger, socket, now))
      ensures superseded == if charger in old(State()).lines then Some(old(State()).lines[charger].socket) else None
    {
      var connection := new R.ChargerConnection(charger, socket, now);
      superseded := registry.Add(connection);
      OneOp(old(State()).lines, R.Register(charger, socket, now));
    }

    // Guarded: an old socket's close fires after the new one has replaced it.
    method OnClose(charger: nat, socket: nat, now: int)
      requires registry.Valid()
      modifies registry, store
      ensures registry.Valid() && State() == Receive(old(State()), Close(charger, socket, now))
    {
      OneOp(old(State()).lines, R.Remove(charger, socket));
      var removed := registry.Evict(charger, socket);
      if removed {
        var _ := store.FailOpenSessionsForCharger(charger, ChargerDisconnected, now);
        OneEvent(old(State()).world, Disconnect(charger, now));
      }
    }

    // One turn of the sweep: a charger not heard from since the cutoff is failed and forgotten.
    method DropIfStale(charger: nat, cutoff: int, now: int)
      requires registry.Valid()
      modifies registry, store
      ensures registry.Valid() && registry.connections.Values <= old(registry.connections.Values)
      ensures State() == if Stale(old(State()).lines, charger, cutoff)
                         then Gate(FailOnCharger(old(State()).world, charger, ChargerDisconnected, now),
                                   old(State()).lines - {charger})
                         else old(State())
    {
      if charger in registry.connections {
        var connection := registry.connections[charger];
        if connection.heardAt < cutoff {
          var _ := store.FailOpenSessionsForCharger(charger, ChargerDisconnected, now);
          var _ := registry.Evict(charger, connection.socket);
        }
      }
    }

    method SweepStaleConnections(cutoff: int, now: int)
      requires registry.Valid()
      modifies registry, store
      ensures registry.Valid() && State() == Swept(old(State()), {}, cutoff, now)
    {
      var todo := registry.connections.Keys;
      NothingSweptYet(State(), cutoff, now);
      while todo != {}
        invariant registry.Valid() && todo <= old(State()).lines.Keys
        invariant registry.connections.Values <= old(registry.connections.Values)
        invariant State() == Swept(old(State()), todo, cutoff, now)
        decreases todo
      {
        var c :| c in todo;
        DropIfStale(c, cutoff, now);
        SweptOneMore(old(State()), todo, c, cutoff, now);
        todo := todo - {c};
      }
    }

    method HandleHeartbeat(charger: nat, now: int)
      requires registry.Valid()
      modifies registry.connections.Values
      ensures registry.Valid() && State() == Receive(old(State()), Alive(charger, now))
    {
      registry.TouchHeartbeat(charger, now);
      OneOp(old(State()).lines, R.Touch(charger, now));
    }

    // A status report about one plug, and about the machine itself.
    method HandlePlugStatus(charger: nat, number: int, status: PlugStatus, now: int)
      requires registry.Valid()
      modifies registry.connections.Values, store
      ensures registry.Valid() && State() == Receive(old(State()), Elsewhere(PlugReport(charger, number, status, now)))
    {
      registry.TouchHeartbeat(charger, now);
      store.HandleStatusNotification(charger, number, status, now);
      OneOp(old(State()).lines, R.Touch(charger, now));
      OneEvent(old(State()).world, PlugReport(charger, number, status, now));
    }

    method HandleMachineStatus(charger: nat, reported: Option<Hardware>, now: int)
      requires registry.Valid() && charger < |store.chargers|
      modifies registry.connections.Values, store
      ensures registry.Valid() && State() == Receive(old(State()), Elsewhere(ChargerReport(charger, reported, now)))
    {
      registry.TouchHeartbeat(charger, now);
      store.HandleChargePointStatus(charger, reported, now);
      OneOp(old(State()).lines, R.Touch(charger, now));
      OneEvent(old(State()).world, ChargerReport(charger, reported, now));
    }

    method HandleStartTransaction(charger: nat, connector: int, idTag: string, meterStart: real, at: int, now: int)
      returns (transactionId: nat, accepted: bool)
      requires registry.Valid()
      modifies registry.connections.Values, store
      ensures registry.Valid()
      ensures State() == Receive(old(State()), StartFrame(charger, connector, idTag, meterStart, at, now))
    {
      ghost var g := State();
      StartFrameEffect(g, charger, connector, idTag, meterStart, at, now);
      registry.TouchHeartbeat(charger, now);
      transactionId, accepted := store.OnStartTransaction(charger, idTag, meterStart, at);
      if accepted {
        registry.SetTransaction(charger, R.Transaction(transactionId, connector, idTag, meterStart));
      }
    }

    // The transaction a frame is about, as the registry has it.
    method ResolveTransaction(charger: nat, transaction: Option<nat>, plug: Option<int>) returns (named: Option<nat>)
      requires registry.Valid()
      ensures named == Resolve(registry.Contents(), charger, transaction, plug)
    {
      named := transaction;
      if named.None? && plug.Some? {
        var slot := registry.GetTransactionByConnector(charger, plug.value);
        if slot.Some? {
          named := Some(slot.value.transactionId);
        }
      }
    }

    method HandleMeterValues(charger: nat, transaction: Option<nat>, plug: Option<int>, energyWh: real,
                             at: int, now: int)
      requires registry.Valid()
      modifies registry.connections.Values, store
      ensures registry.Valid()
      ensures State() == Receive(old(State()), MeterFrame(charger, transaction, plug, energyWh, at, now))
    {
      registry.TouchHeartbeat(charger, now);
      StoreReading(charger, transaction, plug, energyWh, at);
      MeterFrameEffect(old(State()), charger, transaction, plug, energyWh, at, now);
    }

    method StoreReading(charger: nat, transaction: Option<nat>, plug: Option<int>, energyWh: real, at: int)
      requires registry.Valid()
      modifies store
      ensures var named := Resolve(registry.Contents(), charger, transaction, plug);
              store.Snapshot() == if named.Some? then MeterValues(old(store.Snapshot()), named.value, energyWh, at)
                                  else old(store.Snapshot())
    {
      var named := ResolveTransaction(charger, transaction, plug);
      if named.Some? {
        var _ := store.OnMeterValues(named.value, energyWh, at);
      }
    }

    // Only the connector that stopped is forgotten.
    method HandleStopTransaction(charger: nat, transaction: Option<nat>, plug: Option<int>, meterStop: real,
                                 at: int, now: int)
      requires registry.Valid()
      modifies registry.connections.Values, store
      ensures registry.Valid()
      ensures State() == Receive(old(State()), StopFrame(charger, transaction, plug, meterStop, at, now))
    {
      registry.TouchHeartbeat(charger, now);
      TouchKeepsSlots(old(State()).lines, charger, now, transaction, plug);
      var named := FinishSession(charger, transaction, plug, meterStop, at);
      ForgetStopped(charger, named, plug);
      StopFrameEffect(old(State()), charger, transaction, plug, meterStop, at, now);
    }

    method FinishSession(charger: nat, transaction: Option<nat>, plug: Option<int>, meterStop: real, at: int)
      returns (named: Option<nat>)
      requires registry.Valid()
      modifies store
      ensures named == Resolve(registry.Contents(), charger, transaction, plug)
      ensures store.Snapshot() == if named.Some? then StopTransaction(old(store.Snapshot()), named.value, meterStop, at)
                                  else old(store.Snapshot())
    {
      named := ResolveTransaction(charger, transaction, plug);
      if named.Some? {
        var _ := store.OnStopTransaction(named.value, meterStop, at);
      }
    }

    method ForgetStopped(charger: nat, named: Option<nat>, plug: Option<int>)
      requires registry.Valid()
      modifies registry.connections.Values
      ensures registry.Valid()
      ensures var stopped := StoppedOn(old(registry.Contents()), charger, named, plug);
              registry.Contents()
              == if stopped.Some? then R.Apply(old(registry.Contents()), R.Drop(charger, stopped.value))
                                     else old(registry.Contents())
    {
      var stopped := plug;
      if named.Some? {
        var slot := registry.FindTransactionById(charger, named.value);
        if slot.Some? {
          stopped := Some(slot.value.connector);
        }
      }
      if stopped.Some? {
        registry.ClearTransaction(charger, stopped.value);
      }
    }
  }

  // A sign of life moves no slot, so it changes nothing about what a frame is taken to mean.
  lemma TouchKeepsSlots(lines: R.Lines, c: nat, now: int, tx: Option<nat>, plug: Option<int>)
    ensures var touched := R.Apply(lines, R.Touch(c, now));
            && Resolve(touched, c, tx, plug) == Resolve(lines, c, tx, plug)
            && StoppedOn(touched, c, Resolve(lines, c, tx, plug), plug)
               == StoppedOn(lines, c, Resolve(lines, c, tx, plug), plug)
  {
  }

  lemma StartFrameEffect(g: Gate, c: nat, n: int, idTag: string, meterStart: real, at: int, now: int)
    ensures var accepted := Accepted(g.world, c, idTag, meterStart, at);
            var touched := R.Apply(g.lines, R.Touch(c, now));
            Receive(g, StartFrame(c, n, idTag, meterStart, at, now))
            == Gate(StartTransaction(g.world, c, idTag, meterStart, at),
                    if accepted.Some?
                    then R.Apply(touched, R.Put(c, R.Transaction(accepted.value, n, idTag, meterStart)))
                    else touched)
  {
    var accepted := Accepted(g.world, c, idTag, meterStart, at);
    OneEvent(g.world, Begin(c, idTag, meterStart, at));
    if accepted.Some? {
      TwoOps(g.lines, R.Touch(c, now), R.Put(c, R.Transaction(accepted.value, n, idTag, meterStart)));
    } else {
      OneOp(g.lines, R.Touch(c, now));
      assert [R.Touch(c, now)] + [] == [R.Touch(c, now)];
    }
  }

  lemma MeterFrameEffect(g: Gate, c: nat, tx: Option<nat>, plug: Option<int>, wh: real, at: int, now: int)
    ensures var named := Resolve(g.lines, c, tx, plug);
            Receive(g, MeterFrame(c, tx, plug, wh, at, now))
            == Gate(if named.Some? then MeterValues(g.world, named.value, wh, at) else g.world,
                    R.Apply(g.lines, R.Touch(c, now)))
  {
    var named := Resolve(g.lines, c, tx, plug);
    if named.Some? {
      OneEvent(g.world, Meter(named.value, wh, at));
    }
    OneOp(g.lines, R.Touch(c, now));
  }

  lemma StopFrameEffect(g: Gate, c: nat, tx: Option<nat>, plug: Option<int>, wh: real, at: int, now: int)
    ensures var named := Resolve(g.lines, c, tx, plug);
            var stopped := StoppedOn(g.lines, c, named, plug);
            var touched := R.Apply(g.lines, R.Touch(c, now));
            Receive(g, StopFrame(c, tx, plug, wh, at, now))
            == Gate(if named.Some? then StopTransaction(g.world, named.value, wh, at) else g.world,
                    if stopped.Some? then R.Apply(touched, R.Drop(c, stopped.value)) else touched)
  {
    var named := Resolve(g.lines, c, tx, plug);
    var stopped := StoppedOn(g.lines, c, named, plug);
    if named.Some? {
      OneEvent(g.world, Finish(named.value, wh, at));
    }
    if stopped.Some? {
      TwoOps(g.lines, R.Touch(c, now), R.Drop(c, stopped.value));
    } else {
      OneOp(g.lines, R.Touch(c, now));
      assert [R.Touch(c, now)] + [] == [R.Touch(c, now)];
    }
  }

  /* ------------------------------- the stale sweep --------------------------- */

  predicate Silent(lines: R.Lines, left: set<nat>, charger: nat, cutoff: int) {
    Stale(lines, charger, cutoff) && charger !in left
  }

  function OnSilent(lines: R.Lines, left: set<nat>, cutoff: int): Session -> bool {
    (s: Session) => Open(s) && Silent(lines, left, s.charger, cutoff)
  }

  function ReleaseSilent(plugs: seq<Plug>, lines: R.Lines, left: set<nat>, cutoff: int): (released: seq<Plug>)
    ensures |released| == |plugs|
    ensures forall i :: 0 <= i < |plugs| ==>
              released[i] == if Silent(lines, left, plugs[i].charger, cutoff) && InFlight(plugs[i].status)
                             then plugs[i].(status := Unavailable) else plugs[i]
  {
    seq(|plugs|, i requires 0 <= i < |plugs| =>
      if Silent(lines, left, plugs[i].charger, cutoff) && InFlight(plugs[i].status)
      then plugs[i].(status := Unavailable) else plugs[i])
  }

  // The sweep when only the chargers in `left` are still to be looked at.
  function Swept(g: Gate, left: set<nat>, cutoff: int, now: int): Gate {
    Gate(g.world.(sessions := EndAll(g.world.sessions, OnSilent(g.lines, left, cutoff),
                                     Failing(ChargerDisconnected, now)),
                  plugs := ReleaseSilent(g.world.plugs, g.lines, left, cutoff)),
         map c | c in g.lines && !Silent(g.lines, left, c, cutoff) :: g.lines[c])
  }

  lemma NothingSweptYet(g: Gate, cutoff: int, now: int)
    ensures Swept(g, g.lines.Keys, cutoff, now) == g
  {
  }

  lemma SweptOneMore(g: Gate, left: set<nat>, c: nat, cutoff: int, now: int)
    requires c in left && c in g.lines
    ensures var s := Swept(g, left, cutoff, now);
            Swept(g, left - {c}, cutoff, now)
            == if Stale(s.lines, c, cutoff)
              then Gate(FailOnCharger(s.world, c, ChargerDisconnected, now), s.lines - {c}) else s
  {
  }

  // A sweep fails the open sessions of exactly the chargers that fell silent, and forgets exactly them.
  lemma SweepTakesTheSilent(g: Gate, cutoff: int, now: int)
    ensures var g' := Swept(g, {}, cutoff, now);
            && (forall c :: c in g'.lines <==> c in g.lines && g.lines[c].heardAt >= cutoff)
            && (forall c :: c in g'.lines ==> g'.lines[c] == g.lines[c])
            && |g'.world.sessions| == |g.world.sessions|
            && (forall i :: 0 <= i < |g.world.sessions| ==>
                  var s := g.world.sessions[i];
                  if Open(s) && Stale(g.lines, s.charger, cutoff)
                  then g'.world.sessions[i].status == Failed
                    && g'.world.sessions[i].stopReason == Some(ChargerDisconnected)
                  else g'.world.sessions[i] == s)
  {
  }

  lemma OneEvent(w: World, e: Event)
    ensures Run(w, [e]) == Next(w, e)
  {
  }

  lemma OneOp(lines: R.Lines, op: R.Op)
    ensures ApplyAll(lines, [op]) == R.Apply(lines, op)
  {
  }

  lemma TwoOps(lines: R.Lines, op: R.Op, next: R.Op)
    ensures ApplyAll(lines, [op] + [next]) == R.Apply(R.Apply(lines, op), next)
  {
    OneOp(lines, op);
    assert ([op] + [next])[..1] == [op];
  }
}
