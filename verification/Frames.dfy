// What each signal does at the gateway: to the sessions, as the event it stands for, and to the connection it
// came on.

module Frames {
  import opened Options
  import opened Sessions
  import opened SessionRuns
  import opened Transitions
  import opened Gateway
  import R = Registry

  /* -------------------------------- connections ------------------------------ */

  // A charger that connects is held by its new socket, heard from now, with nothing remembered on it.
  lemma ConnectTakesTheLine(g: Gate, charger: nat, socket: nat, now: int)
    ensures Receive(g, Connect(charger, socket, now)) == g.(lines := g.lines[charger := R.Line(socket, now, [])])
  {
    OneOp(g.lines, R.Register(charger, socket, now));
  }

  // A close drops the charger and fails its sessions exactly when it is the close of the socket that holds it.
  lemma CloseExactlyWhen(g: Gate, charger: nat, socket: nat, now: int)
    requires WorldSound(g.world)
    ensures var g' := Receive(g, Close(charger, socket, now));
            if charger in g.lines && g.lines[charger].socket == socket then
              g'.lines == g.lines - {charger} && FailsOnCharger(g.world, g'.world, charger, ChargerDisconnected, now)
            else g' == g
  {
    OneOp(g.lines, R.Remove(charger, socket));
    if charger in g.lines && g.lines[charger].socket == socket {
      OneEvent(g.world, Disconnect(charger, now));
      DisconnectEffect(g.world, charger, now);
    }
  }

  // The heartbeat sweep drops a charger and fails its sessions exactly when it was last heard before the cutoff.
  lemma SilenceExactlyWhen(g: Gate, charger: nat, cutoff: int, now: int)
    requires WorldSound(g.world)
    ensures var g' := Receive(g, Silence(charger, cutoff, now));
            if charger in g.lines && g.lines[charger].heardAt < cutoff then
              g'.lines == g.lines - {charger} && FailsOnCharger(g.world, g'.world, charger, ChargerDisconnected, now)
            else g' == g
  {
    if charger in g.lines && g.lines[charger].heardAt < cutoff {
      OneOp(g.lines, R.Remove(charger, g.lines[charger].socket));
      OneEvent(g.world, Disconnect(charger, now));
      DisconnectEffect(g.world, charger, now);
    }
  }

  // A restart of the process forgets every connection and the id it had counted to, and no session.
  lemma RebootForgets(g: Gate, counter: nat)
    ensures Receive(g, Reboot(counter)) == Gate(g.world.(nextTransactionId := counter), map[])
  {
    OneEvent(g.world, Restart(counter));
  }

  /* ---------------------------------- frames --------------------------------- */

  // Nothing about the connections changed but one line's time and slots.
  ghost predicate SameLines(lines: R.Lines, lines': R.Lines, charger: nat, now: int) {
    && lines'.Keys == lines.Keys
    && (forall c :: c in lines && c != charger ==> lines'[c] == lines[c])
    && (charger in lines ==> lines'[charger] == lines[charger].(heardAt := now, slots := lines'[charger].slots))
  }

  // The slot of one connector is this now, and every other slot is as it was.
  ghost predicate OnlySlot(lines: R.Lines, lines': R.Lines, charger: nat, plug: int, held: Option<R.Transaction>) {
    forall c, n :: R.SlotOn(lines', c, n) == if c == charger && n == plug then held else R.SlotOn(lines, c, n)
  }

  ghost predicate SameSlots(lines: R.Lines, lines': R.Lines) {
    forall c, n :: R.SlotOn(lines', c, n) == R.SlotOn(lines, c, n)
  }

  lemma PutOneSlot(lines: R.Lines, charger: nat, now: int, t: R.Transaction)
    requires charger in lines
    ensures var lines' := R.Apply(R.Apply(lines, R.Touch(charger, now)), R.Put(charger, t));
            SameLines(lines, lines', charger, now) && OnlySlot(lines, lines', charger, t.connector, Some(t))
  {
    forall n ensures R.Slot(R.SetSlot(lines[charger].slots, t), n)
                     == if n == t.connector then Some(t) else R.Slot(lines[charger].slots, n)
    {
      R.SetOneSlot(lines[charger].slots, t, n);
    }
  }

  lemma DropOneSlot(lines: R.Lines, charger: nat, now: int, plug: int)
    ensures var lines' := R.Apply(R.Apply(lines, R.Touch(charger, now)), R.Drop(charger, plug));
            SameLines(lines, lines', charger, now) && OnlySlot(lines, lines', charger, plug, None)
  {
    if charger in lines {
      forall n ensures R.Slot(R.ClearSlot(lines[charger].slots, plug), n)
                       == if n == plug then None else R.Slot(lines[charger].slots, n)
      {
        R.ClearOneSlot(lines[charger].slots, plug, n);
      }
    }
  }

  // A start frame begins the waiting session of its tag, or is a repeat for the running one, and the connector
  // remembers the transaction under the session's id; any other start is refused and remembered nowhere.
  lemma StartFrameBegins(g: Gate, i: nat, c: nat, plug: int, meterStart: real, at: int, now: int)
    requires WorldSound(g.world) && i < |g.world.sessions| && c in g.lines
    ensures var s := g.world.sessions[i];
            var g' := Receive(g, StartFrame(c, plug, s.idTag, meterStart, at, now));
            && SameLines(g.lines, g'.lines, c, now)
            && if s.status == Initiating && s.charger == c then
                 && Begins(g.world, g'.world, i, meterStart, at)
                 && OnlySlot(g.lines, g'.lines, c, plug,
                             Some(R.Transaction(g'.world.nextTransactionId, plug, s.idTag, meterStart)))
               else if s.status == Active then
                 && g'.world == g.world && s.transactionId.Some?
                 && OnlySlot(g.lines, g'.lines, c, plug,
                             Some(R.Transaction(s.transactionId.value, plug, s.idTag, meterStart)))
               else
                 g'.world == g.world.(nextTransactionId := g.world.nextTransactionId + 1)
                   && SameSlots(g.lines, g'.lines)
  {
    var s := g.world.sessions[i];
    assert SessionSound(s);
    TagIsItsOwn(g.world, i);
    StartBeginsItsSession(g.world, i, c, meterStart, at);
    StartFrameEffect(g, c, plug, s.idTag, meterStart, at, now);
    var accepted := Accepted(g.world, c, s.idTag, meterStart, at);
    if accepted.Some? {
      PutOneSlot(g.lines, c, now, R.Transaction(accepted.value, plug, s.idTag, meterStart));
    }
  }

  // The frame is about this transaction: it names it, or names none and its connector holds it.
  predicate About(lines: R.Lines, charger: nat, transaction: Option<nat>, plug: Option<int>, id: nat) {
    if transaction.Some? then transaction.value == id
    else plug.Some? && R.SlotOn(lines, charger, plug.value).Some?
         && R.SlotOn(lines, charger, plug.value).value.transactionId == id
  }

  // A meter frame stores its reading with the open session it is about, if it is news; and touches the line.
  lemma MeterFrameStores(g: Gate, i: nat, id: nat, c: nat, transaction: Option<nat>, plug: Option<int>,
                         energyWh: real, at: int, now: int)
    requires WorldSound(g.world) && i < |g.world.sessions| && Open(g.world.sessions[i])
    requires g.world.sessions[i].transactionId == Some(id) && About(g.lines, c, transaction, plug, id)
    ensures var g' := Receive(g, MeterFrame(c, transaction, plug, energyWh, at, now)); var s := g.world.sessions[i];
            && OnlySession(g.world, g'.world, i)
            && (if IsNews(s, energyWh, at) then Stores(s, g'.world.sessions[i], energyWh, at) else g'.world == g.world)
            && SameLines(g.lines, g'.lines, c, now) && SameSlots(g.lines, g'.lines)
  {
    MeterFrameEffect(g, c, transaction, plug, energyWh, at, now);
    ReadingIsStoredExactlyWhen(g.world, i, id, energyWh, at);
  }

  // A frame about no open session changes none.
  lemma FrameAboutNobody(g: Gate, c: nat, transaction: Option<nat>, plug: Option<int>, wh: real, at: int, now: int)
    requires forall i: nat, id: nat ::
               i < |g.world.sessions| && Open(g.world.sessions[i]) && About(g.lines, c, transaction, plug, id) ==>
               g.world.sessions[i].transactionId != Some(id)
    ensures Receive(g, MeterFrame(c, transaction, plug, wh, at, now)).world == g.world
    ensures Receive(g, StopFrame(c, transaction, plug, wh, at, now)).world == g.world
  {
    MeterFrameEffect(g, c, transaction, plug, wh, at, now);
    StopFrameEffect(g, c, transaction, plug, wh, at, now);
    var named := Resolve(g.lines, c, transaction, plug);
    if named.Some? {
      assert About(g.lines, c, transaction, plug, named.value);
      NobodysTransaction(g.world, named.value, wh, at);
    }
  }

  // A stop frame completes and bills the open session it is about, and no other.
  lemma StopFrameCompletes(g: Gate, i: nat, id: nat, c: nat, transaction: Option<nat>, plug: Option<int>,
                           meterStop: real, at: int, now: int)
    requires WorldSound(g.world) && i < |g.world.sessions| && Open(g.world.sessions[i])
    requires g.world.sessions[i].transactionId == Some(id) && About(g.lines, c, transaction, plug, id)
    ensures var g' := Receive(g, StopFrame(c, transaction, plug, meterStop, at, now));
            OnlySession(g.world, g'.world, i) && Completes(g.world.sessions[i], g'.world.sessions[i], meterStop, at)
  {
    StopFrameEffect(g, c, transaction, plug, meterStop, at, now);
    StopEndsItsSession(g.world, i, id, meterStop, at);
  }

  // And it is forgotten: the connector that held its transaction, or failing that the one the frame names.
  lemma StopFrameForgets(g: Gate, id: nat, c: nat, transaction: Option<nat>, plug: Option<int>,
                         meterStop: real, at: int, now: int)
    requires c in g.lines && About(g.lines, c, transaction, plug, id)
    ensures var g' := Receive(g, StopFrame(c, transaction, plug, meterStop, at, now));
            && SameLines(g.lines, g'.lines, c, now)
            && if exists t :: t in g.lines[c].slots && t.transactionId == id then
                 exists t :: t in g.lines[c].slots && t.transactionId == id
                   && OnlySlot(g.lines, g'.lines, c, t.connector, None)
               else if plug.Some? then OnlySlot(g.lines, g'.lines, c, plug.value, None)
               else SameSlots(g.lines, g'.lines)
  {
    StopFrameEffect(g, c, transaction, plug, meterStop, at, now);
    var slot := R.FindTransaction(g.lines[c].slots, id);
    if slot.Some? {
      DropOneSlot(g.lines, c, now, slot.value.connector);
    } else if plug.Some? {
      DropOneSlot(g.lines, c, now, plug.value);
    }
  }

  /* ------------------------------ everything else ----------------------------- */

  predicate FromAFrame(e: Event) {
    e.Begin? || e.Meter? || e.Finish? || e.Restart?
  }

  // Any other event is taken as it is asked for; only that a charger is connected is for the registry to say.
  lemma ElsewhereIsTheEvent(g: Gate, e: Event)
    requires !FromAFrame(e)
    ensures var g' := Receive(g, Elsewhere(e));
            match e
            case Start(user, connector, idTag, facts, now) =>
              var live := connector < |g.world.plugs| && g.world.plugs[connector].charger in g.lines;
              g' == g.(world := StartSession(g.world, user, connector, idTag, facts.(connected := live), now))
            case Stop(session, _, accepted, now) =>
              var live := session < |g.world.sessions| && g.world.sessions[session].charger in g.lines;
              g' == g.(world := StopSession(g.world, session, live, accepted, now))
            case PlugReport(charger, _, _, now) =>
              g'.world == Next(g.world, e) && SameLines(g.lines, g'.lines, charger, now) && SameSlots(g.lines, g'.lines)
            case ChargerReport(charger, _, now) =>
              g'.world == Next(g.world, e) && SameLines(g.lines, g'.lines, charger, now) && SameSlots(g.lines, g'.lines)
            case _ => g' == g.(world := Next(g.world, e))
  {
    match e
    case Start(_, _, _, _, _) => OneEvent(g.world, Grounded(g, e));
    case Stop(_, _, _, _) => OneEvent(g.world, Grounded(g, e));
    case PlugReport(charger, _, _, now) =>
      OneEvent(g.world, e);
      OneOp(g.lines, R.Touch(charger, now));
    case ChargerReport(charger, _, now) =>
      OneEvent(g.world, e);
      OneOp(g.lines, R.Touch(charger, now));
    case _ => OneEvent(g.world, e);
  }

  lemma AliveIsHeard(g: Gate, c: nat, now: int)
    ensures var g' := Receive(g, Alive(c, now));
            g'.world == g.world && SameLines(g.lines, g'.lines, c, now) && SameSlots(g.lines, g'.lines)
  {
    OneOp(g.lines, R.Touch(c, now));
  }
}
