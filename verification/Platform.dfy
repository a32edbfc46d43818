// Chargers, sessions and money together. Chargers send frames, drivers and the clock send requests; what they
// do to sessions is billed, and the charge that settlement collects is the money side of the session document:
// a session event writes both, a payment step writes only `paid`.

module Platform {
  import opened Options
  import opened Sums
  import opened Money
  import S = Sessions
  import SR = SessionRuns
  import SG = SessionGuarantees
  import GW = Gateway
  import R = Registry
  import M = Settlement
  import G = Guarantees
  import T = Tariffs
  import Books
  import Accounts
  import Provenance
  import TopUp
  import Uninterrupted

  datatype Step = Signalled(signal: GW.Signal) | Paying(action: M.Action)

  // What the gateway has received and the money actions so far, each in order.
  datatype Trace = Trace(signals: seq<GW.Signal>, actions: seq<M.Action>)

  // What one session's change means for its charge: opened with the row, priced by the save that ends it.
  function BillOne(before: seq<S.Session>, after: seq<S.Session>, i: nat): seq<M.Action>
    requires i < |after|
  {
    var created := if i < |before| then [] else [M.OpenCharge(after[i].user)];
    var unpriced := i >= |before| || before[i].amount.None?;
    created + if unpriced && after[i].amount.Some? && after[i].endedAt.Some?
             then [M.Price(i, after[i].amount.value, after[i].endedAt.value)] else []
  }

  function Billing(before: seq<S.Session>, after: seq<S.Session>, n: nat): seq<M.Action>
    requires n <= |after|
  {
    if n == 0 then [] else Billing(before, after, n - 1) + BillOne(before, after, n - 1)
  }

  predicate Pays(a: M.Action) {
    !a.OpenCharge? && !a.Price?
  }

  // The gateway after a run of signals on a fresh process.
  function GateAfter(w: S.World, signals: seq<GW.Signal>): GW.Gate {
    GW.ReceiveAll(GW.Gate(w, map[]), signals)
  }

  // A start asks the money side whether the driver is in arrears; the gateway itself answers whether the
  // charger is connected.
  function Grounded(trace: Trace, signal: GW.Signal): GW.Signal {
    if signal.Elsewhere? && signal.event.Start? then
      var e := signal.event;
      var arrears := TopUp.AssessArrears(M.Run(M.EMPTY, trace.actions).db, e.user, e.now);
      GW.Elsewhere(S.Start(e.user, e.connector, e.idTag, e.facts.(inArrears := arrears.blocked), e.now))
    else signal
  }

  function Take(w: S.World, trace: Trace, step: Step): Trace {
    match step
    case Signalled(asked) =>
      var signals := trace.signals + [Grounded(trace, asked)];
      var before, after := GateAfter(w, trace.signals).world.sessions, GateAfter(w, signals).world.sessions;
      Trace(signals, trace.actions + Billing(before, after, |after|))
    case Paying(a) => if Pays(a) then trace.(actions := trace.actions + [a]) else trace
  }

  function TakeAll(w: S.World, steps: seq<Step>): Trace {
    if steps == [] then Trace([], []) else Take(w, TakeAll(w, steps[..|steps| - 1]), steps[|steps| - 1])
  }

  function Gate(w: S.World, steps: seq<Step>): GW.Gate {
    GateAfter(w, TakeAll(w, steps).signals)
  }

  function World(w: S.World, steps: seq<Step>): S.World {
    Gate(w, steps).world
  }

  // The session events that the signals gave rise to.
  function Events(w: S.World, steps: seq<Step>): seq<S.Event> {
    GW.EventsOf(GW.Gate(w, map[]), TakeAll(w, steps).signals)
  }

  function Database(w: S.World, steps: seq<Step>): M.Db {
    M.Run(M.EMPTY, TakeAll(w, steps).actions).db
  }

  lemma WorldIsARun(w: S.World, steps: seq<Step>)
    ensures World(w, steps) == S.Run(w, Events(w, steps))
  {
    GW.GatewayRefines(w, TakeAll(w, steps).signals);
  }

  /* --------------------------------- mirroring ------------------------------- */

  predicate Mirrors(s: S.Session, charge: M.Charge) {
    charge.user == s.user && charge.amount == s.amount && (s.amount.Some? ==> charge.endedAt == s.endedAt)
  }

  // The first n charges show the sessions as they are now; the rest, as they were.
  ghost predicate MirrorsUpTo(before: seq<S.Session>, after: seq<S.Session>, charges: seq<M.Charge>, n: nat) {
    && |charges| == (if n > |before| then n else |before|) && n <= |after|
    && (forall i :: 0 <= i < n ==> Mirrors(after[i], charges[i]))
    && (forall i :: n <= i < |before| ==> Mirrors(before[i], charges[i]))
  }

  // A priced document has an end, and a price is never lost.
  ghost predicate Continues(before: seq<S.Session>, after: seq<S.Session>) {
    && |before| <= |after|
    && (forall i :: 0 <= i < |after| && after[i].amount.Some? ==> after[i].endedAt.Some?)
    && (forall i :: 0 <= i < |before| ==>
          && after[i].user == before[i].user
          && (before[i].amount.Some? ==> after[i].amount == before[i].amount && after[i].endedAt == before[i].endedAt))
  }

  lemma BillOneMirrors(before: seq<S.Session>, after: seq<S.Session>, actions: seq<M.Action>, i: nat)
    requires i < |after| && Continues(before, after)
    requires MirrorsUpTo(before, after, M.Run(M.EMPTY, actions).db.charges, i)
    ensures MirrorsUpTo(before, after, M.Run(M.EMPTY, actions + BillOne(before, after, i)).db.charges, i + 1)
  {
    var ready := actions;
    if i >= |before| {
      ready := actions + [M.OpenCharge(after[i].user)];
      M.RunOne(M.EMPTY, actions, M.OpenCharge(after[i].user));
    }
    var bill := BillOne(before, after, i);
    if (i >= |before| || before[i].amount.None?) && after[i].amount.Some? {
      var price := M.Price(i, after[i].amount.value, after[i].endedAt.value);
      M.RunOne(M.EMPTY, ready, price);
      assert actions + bill == ready + [price];
    } else {
      assert actions + bill == ready;
    }
  }

  function ChargesOf(): seq<M.Action> -> seq<M.Charge> {
    (actions: seq<M.Action>) => M.Run(M.EMPTY, actions).db.charges
  }

  // Billing one more session carries the mirror one further.
  ghost predicate Carries(before: seq<S.Session>, after: seq<S.Session>, charges: seq<M.Action> -> seq<M.Charge>,
                          earlier: seq<M.Action>, i: nat)
    requires i < |after|
  {
    MirrorsUpTo(before, after, charges(earlier), i) ==>
      MirrorsUpTo(before, after, charges(earlier + BillOne(before, after, i)), i + 1)
  }

  // Billing session by session carries the mirror along, whatever reads the charges off the actions.
  lemma {:induction false} BillingCarries(before: seq<S.Session>, after: seq<S.Session>, actions: seq<M.Action>, n: nat,
                                          charges: seq<M.Action> -> seq<M.Charge>)
    requires n <= |after| && MirrorsUpTo(before, after, charges(actions), 0)
    requires forall earlier, i: nat :: i < |after| ==> Carries(before, after, charges, earlier, i)
    ensures MirrorsUpTo(before, after, charges(actions + Billing(before, after, n)), n)
  {
    if n == 0 {
      assert actions + [] == actions;
    } else {
      BillingCarries(before, after, actions, n - 1, charges);
      var earlier := actions + Billing(before, after, n - 1);
      assert Carries(before, after, charges, earlier, n - 1);
      assert actions + Billing(before, after, n) == earlier + BillOne(before, after, n - 1);
    }
  }

  lemma BillingMirrors(before: seq<S.Session>, after: seq<S.Session>, actions: seq<M.Action>)
    requires Continues(before, after) && MirrorsUpTo(before, after, ChargesOf()(actions), 0)
    ensures MirrorsUpTo(before, after, ChargesOf()(actions + Billing(before, after, |after|)), |after|)
  {
    forall earlier, i: nat | i < |after| ensures Carries(before, after, ChargesOf(), earlier, i) {
      if MirrorsUpTo(before, after, ChargesOf()(earlier), i) {
        BillOneMirrors(before, after, earlier, i);
      }
    }
    BillingCarries(before, after, actions, |after|, ChargesOf());
  }

  // No caller, reversal or administrator writes a charge's owner, price or end.
  lemma PayingLeavesPrices(sys: M.System, a: M.Action)
    requires Pays(a)
    ensures |M.Next(sys, a).db.charges| == |sys.db.charges|
    ensures forall i :: 0 <= i < |sys.db.charges| ==>
              var charge, charge' := sys.db.charges[i], M.Next(sys, a).db.charges[i];
              charge'.user == charge.user && charge'.amount == charge.amount && charge'.endedAt == charge.endedAt
  {
  }

  lemma SessionStepContinues(w: S.World, e: S.Event)
    requires SR.WorldSound(w)
    ensures Continues(w.sessions, S.Next(w, e).sessions)
  {
    SR.NextSound(w, e);
    var before, after := w.sessions, S.Next(w, e).sessions;
    forall i | 0 <= i < |after| && after[i].amount.Some? ensures after[i].endedAt.Some? {
      assert SR.SessionSound(after[i]);
    }
    forall i | 0 <= i < |before|
      ensures after[i].user == before[i].user
      ensures before[i].amount.Some? ==> after[i].amount == before[i].amount && after[i].endedAt == before[i].endedAt
    {
      assert SR.SessionSound(before[i]) && SR.Evolves(before[i], after[i]);
    }
  }

  // A signal gives rise to one session event or none.
  lemma SignalContinues(g: GW.Gate, signal: GW.Signal)
    requires SR.WorldSound(g.world)
    ensures Continues(g.world.sessions, GW.Receive(g, signal).world.sessions)
  {
    var events := GW.Events(g, signal);
    if events == [] {
      forall i | 0 <= i < |g.world.sessions| && g.world.sessions[i].amount.Some?
        ensures g.world.sessions[i].endedAt.Some?
      {
        assert SR.SessionSound(g.world.sessions[i]);
      }
    } else {
      assert events == [events[0]];
      GW.OneEvent(g.world, events[0]);
      SessionStepContinues(g.world, events[0]);
    }
  }

  lemma OneMore(w: S.World, signals: seq<GW.Signal>, signal: GW.Signal)
    ensures GateAfter(w, signals + [signal]) == GW.Receive(GateAfter(w, signals), signal)
  {
    assert (signals + [signal])[..|signals|] == signals;
  }

  // In every run of frames, requests and payments, each charge shows its session's owner, price and end.
  lemma {:induction false} ChargesMirrorSessions(w: S.World, steps: seq<Step>)
    requires SR.Fresh(w)
    ensures var sessions, charges := World(w, steps).sessions, Database(w, steps).charges;
            MirrorsUpTo(sessions, sessions, charges, |sessions|)
  {
    if steps != [] {
      var before, step := steps[..|steps| - 1], steps[|steps| - 1];
      ChargesMirrorSessions(w, before);
      var trace := TakeAll(w, before);
      match step
      case Signalled(asked) =>
        var signal := Grounded(trace, asked);
        var g := GateAfter(w, trace.signals);
        GW.ReceiveAllRouted(w, trace.signals);
        OneMore(w, trace.signals, signal);
        SignalContinues(g, signal);
        BillingMirrors(g.world.sessions, GW.Receive(g, signal).world.sessions, trace.actions);
      case Paying(a) =>
        if Pays(a) {
          M.RunOne(M.EMPTY, trace.actions, a);
          PayingLeavesPrices(M.Run(M.EMPTY, trace.actions), a);
        }
    }
  }

  /* --------------------------------- the promise ----------------------------- */

  // Every session's energy is billed at the price in force when it was requested, and collected by at
  // most one debit of exactly that bill from exactly that driver: by one when it is paid and cost
  // something, by none otherwise; and nothing is ever taken for a session that is still open.
  lemma DeliveredIsCollectedOnce(w: S.World, steps: seq<Step>, i: nat) returns (k: nat)
    requires SR.Fresh(w) && i < |World(w, steps).sessions|
    ensures var events := Events(w, steps); var s := World(w, steps).sessions[i];
            && k < |events| && SG.CreatedBy(w, events, k, i)
            && s.rate.Some? && s.rate == T.PriceInForce(S.Run(w, events[..k]).tariffs, s.company)
    ensures var s := World(w, steps).sessions[i]; var db := Database(w, steps);
            var debits := Sum(db.ledger, G.DebitOf(i));
            && i < |db.charges| && db.charges[i].user == s.user && db.charges[i].amount == s.amount
            && (S.Open(s) ==> !db.charges[i].paid && debits == 0)
            && (S.Ended(s) ==>
                  && s.amount == Some(CalculateAmountPaise(s.energyWh, s.rate.value))
                  && debits == (if db.charges[i].paid && s.amount.value > 0 then 1 else 0)
                  && (s.amount.value == 0 ==> db.charges[i].paid)
                  && (forall k :: 0 <= k < |db.ledger| && db.ledger[k].session == Some(i) ==>
                        && db.ledger[k].user == s.user && db.ledger[k].direction == M.Debit
                        && db.ledger[k].amount == CalculateAmountPaise(s.energyWh, s.rate.value)))
  {
    ChargesMirrorSessions(w, steps);
    assert Mirrors(World(w, steps).sessions[i], Database(w, steps).charges[i]);
    WorldIsARun(w, steps);
    k := SG.RateIsPriceAtCreation(w, Events(w, steps), i);
    SG.MeterToMoney(w, Events(w, steps), i);
    G.ExactlyOnce(TakeAll(w, steps).actions, i);
  }

  // Every session event came from a signal.
  lemma {:induction false} EventHasItsSignal(g: GW.Gate, signals: seq<GW.Signal>, k: nat) returns (m: nat)
    requires k < |GW.EventsOf(g, signals)|
    ensures m < |signals| && GW.Events(GW.ReceiveAll(g, signals[..m]), signals[m]) == [GW.EventsOf(g, signals)[k]]
  {
    var n := |signals| - 1;
    var before := GW.EventsOf(g, signals[..n]);
    if k < |before| {
      m := EventHasItsSignal(g, signals[..n], k);
      assert signals[..n][..m] == signals[..m] && signals[..n][m] == signals[m];
    } else {
      m := n;
      AtMostOneEvent(GW.ReceiveAll(g, signals[..n]), signals[n]);
    }
  }

  lemma AtMostOneEvent(g: GW.Gate, signal: GW.Signal)
    ensures |GW.Events(g, signal)| <= 1
  {
  }

  lemma BeginNeedsAStartFrame(g: GW.Gate, signal: GW.Signal, e: S.Event)
    requires GW.Events(g, signal) == [e] && e.Begin?
    ensures signal.StartFrame? && signal.charger == e.charger && signal.idTag == e.idTag
    ensures signal.meterStart == e.meterStart && signal.at == e.at
  {
    assert [e][0] == GW.Events(g, signal)[0];
  }

  lemma FinishNeedsAStopFrame(g: GW.Gate, signal: GW.Signal, e: S.Event)
    requires GW.Events(g, signal) == [e] && e.Finish?
    ensures signal.StopFrame? && signal.meterStop == e.meterStop && signal.at == e.at
    ensures GW.Resolve(g.lines, signal.charger, signal.transaction, signal.plug) == Some(e.transactionId)
  {
    assert [e][0] == GW.Events(g, signal)[0];
  }

  // This frame started the session: by its own charger, under its tag.
  predicate StartedBy(signals: seq<GW.Signal>, m: nat, s: S.Session) {
    m < |signals| && signals[m].StartFrame? && signals[m].charger == s.charger && signals[m].idTag == s.idTag
  }

  // This frame stopped it: for its transaction, named by the frame or found on the frame's connector.
  predicate StoppedBy(w: S.World, signals: seq<GW.Signal>, m: nat, s: S.Session) {
    && m < |signals| && signals[m].StopFrame? && s.transactionId.Some?
    && var lines := GateAfter(w, signals[..m]).lines;
       GW.Resolve(lines, signals[m].charger, signals[m].transaction, signals[m].plug) == s.transactionId
  }

  // The two values that the frames carried, at the price in force when the session was asked for.
  predicate BilledForFrames(w: S.World, events: seq<S.Event>, start: GW.Signal, stop: GW.Signal, k: nat,
                            i: nat, company: nat, bill: nat)
    requires start.StartFrame? && stop.StopFrame?
  {
    k < |events| && SG.CreatedBy(w, events, k, i)
    && var price := T.PriceInForce(S.Run(w, events[..k]).tariffs, company);
       price.Some?
       && bill == CalculateAmountPaise(S.ConsumedWh(Some(start.meterStart), Some(stop.meterStop)), price.value)
  }

  lemma FramesOfABill(w: S.World, steps: seq<Step>, i: nat) returns (started: nat, stopped: nat, k: nat)
    requires SR.Fresh(w) && i < |World(w, steps).sessions| && World(w, steps).sessions[i].status == S.Completed
    ensures var s := World(w, steps).sessions[i]; var signals := TakeAll(w, steps).signals;
            && s.amount.Some? && StartedBy(signals, started, s) && StoppedBy(w, signals, stopped, s)
            && BilledForFrames(w, Events(w, steps), signals[started], signals[stopped], k, i, s.company, s.amount.value)
  {
    var g, signals, events := GW.Gate(w, map[]), TakeAll(w, steps).signals, Events(w, steps);
    WorldIsARun(w, steps);
    var begun, finished, requested := Provenance.BilledAsReported(w, events, i);
    k := requested;
    started := EventHasItsSignal(g, signals, begun);
    BeginNeedsAStartFrame(GW.ReceiveAll(g, signals[..started]), signals[started], events[begun]);
    stopped := EventHasItsSignal(g, signals, finished);
    FinishNeedsAStopFrame(GW.ReceiveAll(g, signals[..stopped]), signals[stopped], events[finished]);
  }

  // From the frames to the money: in every run a completed session is billed for the difference between the
  // value of a start frame, under its tag, and the value of a stop frame, for its transaction, at the price
  // in force when it was asked for; and that bill is what is debited, once if it is paid and not at all if
  // it is not.
  lemma FramesToDebit(w: S.World, steps: seq<Step>, i: nat) returns (started: nat, stopped: nat, k: nat, bill: nat)
    requires SR.Fresh(w) && i < |World(w, steps).sessions| && World(w, steps).sessions[i].status == S.Completed
    ensures var s := World(w, steps).sessions[i]; var db := Database(w, steps);
            var signals := TakeAll(w, steps).signals;
            && StartedBy(signals, started, s) && StoppedBy(w, signals, stopped, s)
            && BilledForFrames(w, Events(w, steps), signals[started], signals[stopped], k, i, s.company, bill)
            && i < |db.charges| && Sum(db.ledger, G.DebitOf(i)) == (if db.charges[i].paid && bill > 0 then 1 else 0)
            && (forall j :: 0 <= j < |db.ledger| && db.ledger[j].session == Some(i) ==>
                  && db.ledger[j].user == s.user && db.ledger[j].direction == M.Debit && db.ledger[j].amount == bill)
  {
    started, stopped, k := FramesOfABill(w, steps, i);
    bill := World(w, steps).sessions[i].amount.value;
    var _ := DeliveredIsCollectedOnce(w, steps, i);
  }

  predicate BilledTo(s: S.Session, charge: M.Charge, user: nat) {
    Accounts.Charged(user)(charge)
    == if s.user == user && charge.paid && s.rate.Some? then CalculateAmountPaise(s.energyWh, s.rate.value) else 0
  }

  lemma ChargeIsItsBill(w: S.World, steps: seq<Step>, i: nat, user: nat)
    requires SR.Fresh(w) && i < |World(w, steps).sessions|
    ensures i < |Database(w, steps).charges|
            && BilledTo(World(w, steps).sessions[i], Database(w, steps).charges[i], user)
  {
    ChargesMirrorSessions(w, steps);
    assert Mirrors(World(w, steps).sessions[i], Database(w, steps).charges[i]);
    WorldIsARun(w, steps);
    SG.MeterToMoney(w, Events(w, steps), i);
    G.ExactlyOnce(TakeAll(w, steps).actions, i);
  }

  // A driver's wallet is what was topped up, less the bill of every session settled so far, each bill
  // being the energy delivered times the rate.
  lemma WalletIsTopUpsLessEnergy(w: S.World, steps: seq<Step>, user: nat)
    requires SR.Fresh(w)
    ensures var sessions, db := World(w, steps).sessions, Database(w, steps);
            && |db.charges| == |sessions|
            && Books.Balance(db, user)
               == Sum(db.payments, Accounts.ToppedUp(user)) - Sum(db.charges, Accounts.Charged(user))
            && (forall i :: 0 <= i < |sessions| ==> BilledTo(sessions[i], db.charges[i], user))
  {
    ChargesMirrorSessions(w, steps);
    Accounts.BalanceIsTopUpsLessCharges(TakeAll(w, steps).actions, user);
    forall i | 0 <= i < |World(w, steps).sessions|
      ensures BilledTo(World(w, steps).sessions[i], Database(w, steps).charges[i], user)
    {
      ChargeIsItsBill(w, steps, i, user);
    }
  }

  /* ---------------------------------- arrears -------------------------------- */

  lemma TakeOne(w: S.World, steps: seq<Step>, step: Step)
    ensures TakeAll(w, steps + [step]) == Take(w, TakeAll(w, steps), step)
  {
    assert (steps + [step])[..|steps|] == steps;
  }

  lemma SignalStep(w: S.World, steps: seq<Step>, signal: GW.Signal)
    ensures Gate(w, steps + [Signalled(signal)])
            == GW.Receive(Gate(w, steps), Grounded(TakeAll(w, steps), signal))
  {
    TakeOne(w, steps, Signalled(signal));
    OneMore(w, TakeAll(w, steps).signals, Grounded(TakeAll(w, steps), signal));
  }

  // A signal other than a start reaches the gateway as it was sent.
  lemma OtherSignalsPass(w: S.World, steps: seq<Step>, signal: GW.Signal)
    requires signal.Elsewhere? ==> !signal.event.Start?
    ensures Gate(w, steps + [Signalled(signal)]) == GW.Receive(Gate(w, steps), signal)
  {
    SignalStep(w, steps, signal);
  }

  // What no bill does: it opens and prices charges, and moves no money.
  predicate OnlyBills(a: M.Action) {
    a.OpenCharge? || a.Price?
  }

  lemma {:induction false} BillingOnlyBills(before: seq<S.Session>, after: seq<S.Session>, n: nat)
    requires n <= |after|
    ensures forall k :: 0 <= k < |Billing(before, after, n)| ==> OnlyBills(Billing(before, after, n)[k])
  {
    if n > 0 {
      BillingOnlyBills(before, after, n - 1);
    }
  }

  lemma {:induction false} BillsMoveNoMoney(sys: M.System, actions: seq<M.Action>)
    requires forall k :: 0 <= k < |actions| ==> OnlyBills(actions[k])
    ensures var db := M.Run(sys, actions).db;
            db.wallets == sys.db.wallets && db.ledger == sys.db.ledger && db.payments == sys.db.payments
  {
    if actions != [] {
      BillsMoveNoMoney(sys, actions[..|actions| - 1]);
    }
  }

  // In every run nothing a charger or a driver signals moves money by itself: only payment steps do.
  lemma SignalsMoveNoMoney(w: S.World, steps: seq<Step>, signal: GW.Signal)
    ensures var db, db' := Database(w, steps), Database(w, steps + [Signalled(signal)]);
            db'.wallets == db.wallets && db'.ledger == db.ledger && db'.payments == db.payments
  {
    TakeOne(w, steps, Signalled(signal));
    var trace := TakeAll(w, steps);
    var after := GateAfter(w, trace.signals + [Grounded(trace, signal)]).world.sessions;
    var bills := Billing(GateAfter(w, trace.signals).world.sessions, after, |after|);
    BillingOnlyBills(GateAfter(w, trace.signals).world.sessions, after, |after|);
    M.RunThen(M.EMPTY, trace.actions, bills);
    BillsMoveNoMoney(M.Run(M.EMPTY, trace.actions), bills);
  }

  lemma OnlyAStartAdds(w: S.World, e: S.Event)
    requires |S.Next(w, e).sessions| > |w.sessions|
    ensures e.Start? && !e.facts.inArrears && S.Next(w, e).sessions[|w.sessions|].user == e.user
  {
  }

  lemma OnlyAStartSignalAdds(g: GW.Gate, signal: GW.Signal)
    requires |GW.Receive(g, signal).world.sessions| > |g.world.sessions|
    ensures signal.Elsewhere? && signal.event.Start? && !signal.event.facts.inArrears
    ensures GW.Receive(g, signal).world.sessions[|g.world.sessions|].user == signal.event.user
  {
    var events := GW.Events(g, signal);
    assert events == [events[0]];
    GW.OneEvent(g.world, events[0]);
    OnlyAStartAdds(g.world, events[0]);
  }

  // In every run a session is created only by a start whose driver is not in arrears at that moment, on a
  // charger that is connected: by a socket registered last and not removed since.
  lemma EveryStartWasAllowed(w: S.World, steps: seq<Step>, signal: GW.Signal) returns (k: nat)
    requires |World(w, steps + [Signalled(signal)]).sessions| > |World(w, steps).sessions|
    ensures signal.Elsewhere? && signal.event.Start?
    ensures var s := World(w, steps + [Signalled(signal)]).sessions[|World(w, steps).sessions|];
            && s.user == signal.event.user && s.status == S.Initiating
            && !TopUp.AssessArrears(Database(w, steps), s.user, signal.event.now).blocked
            && s.charger in Gate(w, steps).lines
            && R.Current(GW.OpsOf(GW.Gate(w, map[]), TakeAll(w, steps).signals), k, s.charger)
  {
    SignalStep(w, steps, signal);
    var asked := Grounded(TakeAll(w, steps), signal);
    OnlyAStartSignalAdds(Gate(w, steps), asked);
    k := GW.StartNeedsALiveSocket(w, TakeAll(w, steps).signals, asked);
  }

  // Whether a plug's charger is connected.
  predicate Live(g: GW.Gate, connector: nat) {
    connector < |g.world.plugs| && g.world.plugs[connector].charger in g.lines
  }

  lemma StartIsReceived(g: GW.Gate, user: nat, connector: nat, idTag: string, facts: S.Facts, now: int)
    ensures GW.Receive(g, GW.Elsewhere(S.Start(user, connector, idTag, facts, now))).world
            == S.StartSession(g.world, user, connector, idTag, facts.(connected := Live(g, connector)), now)
  {
    GW.OneEvent(g.world, GW.Grounded(g, S.Start(user, connector, idTag, facts, now)));
  }

  // In every run a start by a driver with more than three aged debts, or more than 200 rupees of them, changes
  // nothing.
  lemma AgedDebtRefusesStarts(w: S.World, steps: seq<Step>, user: nat, connector: nat, idTag: string,
                              facts: S.Facts, now: int)
    requires var db := Database(w, steps); var aged := TopUp.Aged(db, user, now);
             |aged| > 3 || TopUp.Owing(db, aged, |db.charges|) > 20_000
    ensures World(w, steps + [Signalled(GW.Elsewhere(S.Start(user, connector, idTag, facts, now)))]) == World(w, steps)
  {
    TopUp.BlockedExactlyWhen(Database(w, steps), user, now);
    SignalStep(w, steps, GW.Elsewhere(S.Start(user, connector, idTag, facts, now)));
    StartIsReceived(Gate(w, steps), user, connector, idTag, facts.(inArrears := true), now);
  }

  // And a driver who is not in arrears is treated as such.
  lemma StartOutOfArrears(w: S.World, steps: seq<Step>, user: nat, connector: nat, idTag: string,
                          facts: S.Facts, now: int)
    requires !TopUp.AssessArrears(Database(w, steps), user, now).blocked
    ensures World(w, steps + [Signalled(GW.Elsewhere(S.Start(user, connector, idTag, facts, now)))])
            == S.StartSession(World(w, steps), user, connector, idTag,
                              facts.(inArrears := false, connected := Live(Gate(w, steps), connector)), now)
  {
    SignalStep(w, steps, GW.Elsewhere(S.Start(user, connector, idTag, facts, now)));
    StartIsReceived(Gate(w, steps), user, connector, idTag, facts.(inArrears := false), now);
  }

  function Payings(actions: seq<M.Action>): (steps: seq<Step>)
    ensures |steps| == |actions| && forall k :: 0 <= k < |actions| ==> steps[k] == Paying(actions[k])
  {
    seq(|actions|, k requires 0 <= k < |actions| => Paying(actions[k]))
  }

  // Every action but the two that sessions bill by is taken as it comes.
  lemma PayingOne(w: S.World, steps: seq<Step>, a: M.Action)
    requires !a.OpenCharge? && !a.Price?
    ensures TakeAll(w, steps + [Paying(a)]) == Trace(TakeAll(w, steps).signals, TakeAll(w, steps).actions + [a])
  {
    TakeOne(w, steps, Paying(a));
  }

  predicate Adds(traces: seq<Step> -> Trace, earlier: seq<Step>, a: M.Action) {
    traces(earlier + [Paying(a)]) == Trace(traces(earlier).signals, traces(earlier).actions + [a])
  }

  // Payment steps one after another add their actions, whatever reads the trace off the steps.
  lemma {:induction false} PayingCarries(traces: seq<Step> -> Trace, steps: seq<Step>, actions: seq<M.Action>)
    requires forall k :: 0 <= k < |actions| ==> Pays(actions[k])
    requires forall earlier, a :: Pays(a) ==> Adds(traces, earlier, a)
    ensures traces(steps + Payings(actions)) == Trace(traces(steps).signals, traces(steps).actions + actions)
  {
    if actions == [] {
      assert steps + Payings(actions) == steps;
      assert traces(steps).actions + actions == traces(steps).actions;
    } else {
      var n := |actions| - 1;
      var earlier := steps + Payings(actions[..n]);
      PayingCarries(traces, steps, actions[..n]);
      assert Adds(traces, earlier, actions[n]);
      assert steps + Payings(actions) == earlier + [Paying(actions[n])];
      assert traces(steps).actions + actions == traces(steps).actions + actions[..n] + [actions[n]];
    }
  }

  lemma PayingOnly(w: S.World, steps: seq<Step>, actions: seq<M.Action>)
    requires forall k :: 0 <= k < |actions| ==> Pays(actions[k])
    ensures TakeAll(w, steps + Payings(actions))
            == Trace(TakeAll(w, steps).signals, TakeAll(w, steps).actions + actions)
  {
    var traces := (all: seq<Step>) => TakeAll(w, all);
    forall earlier: seq<Step>, a: M.Action | Pays(a) ensures Adds(traces, earlier, a) {
      PayingOne(w, earlier, a);
    }
    PayingCarries(traces, steps, actions);
  }

  // Some run of payment steps alone collects a debt the wallet covers.
  lemma CoveringTopUpClears(w: S.World, steps: seq<Step>, user: nat, ids: seq<nat>, times: seq<int>)
    returns (more: seq<Step>)
    requires |times| == |ids| && TopUp.UnpaidOf(Database(w, steps), user, ids)
    requires TopUp.ActiveWallet(Database(w, steps), user)
    requires TopUp.Debt(Database(w, steps), ids) <= Books.Balance(Database(w, steps), user)
    ensures forall k :: 0 <= k < |more| ==> more[k].Paying?
    ensures Gate(w, steps + more) == Gate(w, steps)
    ensures forall now :: TopUp.AssessArrears(Database(w, steps + more), user, now) == TopUp.Arrears(0, 0, false)
  {
    var actions := TakeAll(w, steps).actions;
    var sys := M.Run(M.EMPTY, actions);
    Books.EveryRunSound(actions);
    var settling := Uninterrupted.OutstandingAsActions(sys, ids, times);
    M.RunThen(M.EMPTY, actions, settling);
    more := Payings(settling);
    PayingOnly(w, steps, settling);
    forall now ensures TopUp.AssessArrears(Database(w, steps + more), user, now) == TopUp.Arrears(0, 0, false) {
      TopUp.CoveredDebtUnblocks(sys.db, user, ids, times, now);
    }
  }

  // So a top-up that covers the whole debt lets the driver's next start through: from there a start at any
  // time is decided as if there had been no arrears.
  lemma CoveringTopUpReopens(w: S.World, steps: seq<Step>, user: nat, ids: seq<nat>, times: seq<int>)
    returns (more: seq<Step>)
    requires |times| == |ids| && TopUp.UnpaidOf(Database(w, steps), user, ids)
    requires TopUp.ActiveWallet(Database(w, steps), user)
    requires TopUp.Debt(Database(w, steps), ids) <= Books.Balance(Database(w, steps), user)
    ensures forall k :: 0 <= k < |more| ==> more[k].Paying?
    ensures forall connector, idTag, facts: S.Facts, now ::
              World(w, steps + more + [Signalled(GW.Elsewhere(S.Start(user, connector, idTag, facts, now)))])
              == S.StartSession(World(w, steps), user, connector, idTag,
                                facts.(inArrears := false, connected := Live(Gate(w, steps), connector)), now)
  {
    more := CoveringTopUpClears(w, steps, user, ids, times);
    forall connector, idTag, facts: S.Facts, now
      ensures World(w, steps + more + [Signalled(GW.Elsewhere(S.Start(user, connector, idTag, facts, now)))])
              == S.StartSession(World(w, steps), user, connector, idTag,
                                facts.(inArrears := false, connected := Live(Gate(w, steps), connector)), now)
    {
      assert !TopUp.AssessArrears(Database(w, steps + more), user, now).blocked;
      StartOutOfArrears(w, steps + more, user, connector, idTag, facts, now);
    }
  }
}
