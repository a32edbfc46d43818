// The sweep among other callers. Between any two steps of a sweep anything may happen: calls made when a
// session ends, top-ups, other processes' sweeps, new sessions priced, wallets frozen. How many sweeps a due
// payment can wait even so.

module Contention {
  import opened Options
  import opened Sums
  import opened Backoff
  import opened Settlement
  import opened Books
  import opened Settling
  import opened TopUp
  import Sw = Sweeper
  import opened Uninterrupted

  /* --------------------------- what one step may do -------------------------- */

  // The clock of a step is less than one back-off base behind an instant.
  predicate OnTime(a: Action, now: int) {
    a.Advance? ==> a.now + RETRY_BASE_MS > now
  }

  predicate AllOnTime(actions: seq<Action>, now: int) {
    forall k :: 0 <= k < |actions| ==> OnTime(actions[k], now)
  }

  // A session debit is paid and stays so, or waits; and its next attempt only ever moves past `now`.
  predicate RowMoves(row: Payment, row': Payment, now: int) {
    && row'.purpose == row.purpose && row'.session == row.session
    && (row.purpose == SessionCollection ==>
          && (row'.status == row.status || (row.status == Pending && row'.status == Paid))
          && (row'.nextAttemptAt == row.nextAttemptAt || row'.status == Paid
              || (row'.nextAttemptAt.Some? && row'.nextAttemptAt.value > now)))
  }

  ghost predicate RowsMove(db: Db, db': Db, now: int) {
    |db.payments| <= |db'.payments|
    && forall p :: 0 <= p < |db.payments| ==> RowMoves(db.payments[p], db'.payments[p], now)
  }

  lemma CallerMovesRows(db: Db, c: Caller, at: int, now: int)
    requires at + RETRY_BASE_MS > now
    ensures RowsMove(db, StepCaller(db, c, at).0, now)
  {
  }

  lemma StepMovesRows(sys: System, a: Action, now: int)
    requires OnTime(a, now)
    ensures RowsMove(sys.db, Next(sys, a).db, now)
  {
    if a.Advance? && a.index < |sys.callers| {
      CallerMovesRows(sys.db, sys.callers[a.index], a.now, now);
    }
  }

  function PricedBy(a: Action): set<Id> {
    if a.Price? then {a.session} else {}
  }

  // Only a price that has just been set makes an orphan.
  lemma StepOrphans(sys: System, a: Action)
    requires Sound(sys)
    ensures Sw.Orphans(Next(sys, a).db) <= Sw.Orphans(sys.db) + PricedBy(a)
  {
    var db' := Next(sys, a).db;
    NextSound(sys, a);
    forall s | s in Sw.Orphans(db') && s !in PricedBy(a) ensures s in Sw.Orphans(sys.db) {
      StepCharges(sys, a, s);
      forall i | 0 <= i < |sys.db.payments| ensures sys.db.payments[i].session != Some(s) {
        assert db'.payments[i].session == sys.db.payments[i].session;
      }
    }
  }

  lemma StepCharges(sys: System, a: Action, s: Id)
    requires Collectable(Next(sys, a).db, s) && s !in PricedBy(a)
    ensures Collectable(sys.db, s)
  {
  }

  // Only a call that found no row adds a debit row, and then its charge was an orphan.
  lemma StepNewRow(sys: System, a: Action, p: Id)
    requires Sound(sys) && |sys.db.payments| <= p && Sw.Waiting(Next(sys, a).db, p)
    ensures Sw.SessionOf(Next(sys, a).db, p) in Sw.Orphans(sys.db)
  {
    if a.Advance? && a.index < |sys.callers| && sys.callers[a.index].SettleCreate? {
      var c := sys.callers[a.index];
      assert CallerSound(sys.db, c) && ChargeSound(sys.db, c.session);
      Sw.OrphanMeansNoRow(sys.db, c.session);
    }
  }

  /* ------------------------------- over a stretch ---------------------------- */

  function PricedIn(actions: seq<Action>): set<Id> {
    if actions == [] then {} else PricedIn(actions[..|actions| - 1]) + PricedBy(actions[|actions| - 1])
  }

  // From one state to a later one: where its orphans and its due rows come from.
  ghost predicate Leads(db: Db, db': Db, priced: set<Id>, instant: Option<int>) {
    && |db.payments| <= |db'.payments|
    && Sw.Orphans(db') <= Sw.Orphans(db) + priced
    && (forall p :: p in Sw.DueBy(db', instant) ==>
          if p < |db.payments| then p in Sw.DueBy(db, instant) else Sw.SessionOf(db', p) in Sw.Orphans(db) + priced)
  }

  lemma DueStaysDue(db: Db, db': Db, p: Id, instant: Option<int>, now: int)
    requires RowsMove(db, db', now) && NoLater(instant, Some(now))
    requires p < |db.payments| && p in Sw.DueBy(db', instant)
    ensures p in Sw.DueBy(db, instant) && Sw.SessionOf(db', p) == Sw.SessionOf(db, p)
    ensures db'.payments[p].nextAttemptAt == db.payments[p].nextAttemptAt
  {
    assert RowMoves(db.payments[p], db'.payments[p], now);
  }

  lemma StepLeads(sys: System, a: Action, instant: Option<int>, now: int)
    requires Sound(sys) && OnTime(a, now) && NoLater(instant, Some(now))
    ensures Leads(sys.db, Next(sys, a).db, PricedBy(a), instant)
  {
    var db' := Next(sys, a).db;
    StepOrphans(sys, a);
    StepMovesRows(sys, a, now);
    forall p | p in Sw.DueBy(db', instant)
      ensures if p < |sys.db.payments| then p in Sw.DueBy(sys.db, instant)
              else Sw.SessionOf(db', p) in Sw.Orphans(sys.db)
    {
      if p < |sys.db.payments| {
        DueStaysDue(sys.db, db', p, instant, now);
      } else {
        StepNewRow(sys, a, p);
      }
    }
  }

  lemma LeadsOn(db: Db, db1: Db, db2: Db, priced: set<Id>, more: set<Id>, instant: Option<int>, now: int)
    requires Leads(db, db1, priced, instant) && Leads(db1, db2, more, instant)
    requires RowsMove(db1, db2, now) && NoLater(instant, Some(now))
    ensures Leads(db, db2, priced + more, instant)
  {
    forall p | p in Sw.DueBy(db2, instant)
      ensures if p < |db.payments| then p in Sw.DueBy(db, instant)
              else Sw.SessionOf(db2, p) in Sw.Orphans(db) + (priced + more)
    {
      if p < |db1.payments| {
        DueStaysDue(db1, db2, p, instant, now);
      }
    }
  }

  lemma MovesOn(db: Db, db1: Db, db2: Db, now: int)
    requires RowsMove(db, db1, now) && RowsMove(db1, db2, now)
    ensures RowsMove(db, db2, now)
  {
    forall p | 0 <= p < |db.payments| ensures RowMoves(db.payments[p], db2.payments[p], now) {
      assert RowMoves(db.payments[p], db1.payments[p], now) && RowMoves(db1.payments[p], db2.payments[p], now);
    }
  }

  lemma {:induction false} RunStaysSound(sys: System, actions: seq<Action>)
    requires Sound(sys)
    ensures Sound(Run(sys, actions))
  {
    if actions != [] {
      RunStaysSound(sys, actions[..|actions| - 1]);
      NextSound(Run(sys, actions[..|actions| - 1]), actions[|actions| - 1]);
    }
  }

  lemma {:induction false} RunLeads(sys: System, actions: seq<Action>, instant: Option<int>, now: int)
    requires Sound(sys) && AllOnTime(actions, now) && NoLater(instant, Some(now))
    ensures Leads(sys.db, Run(sys, actions).db, PricedIn(actions), instant)
    ensures RowsMove(sys.db, Run(sys, actions).db, now)
  {
    if actions != [] {
      var n := |actions| - 1;
      var before := Run(sys, actions[..n]);
      RunLeads(sys, actions[..n], instant, now);
      RunStaysSound(sys, actions[..n]);
      StepLeads(before, actions[n], instant, now);
      StepMovesRows(before, actions[n], now);
      var after := Next(before, actions[n]);
      LeadsOn(sys.db, before.db, after.db, PricedIn(actions[..n]), PricedBy(actions[n]), instant, now);
      MovesOn(sys.db, before.db, after.db, now);
    }
  }

  /* -------------------------------- the attempts ----------------------------- */

  // The sweep makes this call after some actions, and after some more it has returned.
  ghost predicate CallReturned(sys: System, before: seq<Action>, rest: seq<Action>, s: Id) {
    var start := Run(sys, before);
    Returned(start, Run(Next(start, Call(SettleRead(s))), rest))
  }

  predicate Returned(start: System, last: System) {
    |start.callers| < |last.callers| && Done(last.callers[|start.callers|])
  }

  ghost predicate Attempted(sys: System, actions: seq<Action>, s: Id) {
    exists before, rest :: CallReturned(sys, before, rest, s) && actions == before + [Call(SettleRead(s))] + rest
  }

  lemma RunCall(sys: System, before: seq<Action>, a: Action, rest: seq<Action>)
    ensures Run(sys, before + [a] + rest) == Run(Next(Run(sys, before), a), rest)
  {
    RunThen(sys, before + [a], rest);
    RunOne(sys, before, a);
  }

  predicate HasRow(db: Db, s: Id) {
    exists i :: 0 <= i < |db.payments| && db.payments[i].session == Some(s)
  }

  // A call on a priced charge is on its way to a row, or the charge has one, or needs none.
  predicate TriesOrphan(db: Db, c: Caller, s: Id) {
    || HasRow(db, s)
    || (s < |db.charges| && db.charges[s].paid)
    || ((c.SettleRead? || c.SettleWallet? || c.SettleFind? || c.SettleCreate?) && c.session == s)
  }

  predicate PricedCharge(db: Db, s: Id) {
    s < |db.charges| && db.charges[s].amount.Some? && db.charges[s].amount.value > 0
  }

  lemma NoLongerOrphan(db: Db, db': Db, c: Caller, s: Id)
    requires Grows(db, db') && TriesOrphan(db, c, s)
    ensures TriesOrphan(db', c, s) && (PricedCharge(db, s) ==> PricedCharge(db', s))
  {
    if HasRow(db, s) {
      var i :| 0 <= i < |db.payments| && db.payments[i].session == Some(s);
      assert db'.payments[i].session == Some(s);
    }
  }

  lemma OwnStepOnOrphan(db: Db, c: Caller, s: Id, at: int)
    requires PricedCharge(db, s) && TriesOrphan(db, c, s) && Grows(db, StepCaller(db, c, at).0)
    ensures TriesOrphan(StepCaller(db, c, at).0, StepCaller(db, c, at).1, s)
  {
    var (db', c') := StepCaller(db, c, at);
    NoLongerOrphan(db, db', c, s);
    if c.SettleCreate? && c.session == s && FindLive(db.payments, s).None? {
      assert db'.payments[|db.payments|].session == Some(s);
    }
  }

  lemma StepOnOrphan(sys: System, a: Action, c: nat, s: Id)
    requires c < |sys.callers| && PricedCharge(sys.db, s) && TriesOrphan(sys.db, sys.callers[c], s)
    requires Grows(sys.db, Next(sys, a).db)
    ensures var next := Next(sys, a);
            c < |next.callers| && PricedCharge(next.db, s) && TriesOrphan(next.db, next.callers[c], s)
  {
    var next := Next(sys, a);
    NoLongerOrphan(sys.db, next.db, sys.callers[c], s);
    if a.Advance? && a.index == c {
      OwnStepOnOrphan(sys.db, sys.callers[c], s, a.now);
    }
  }

  lemma {:induction false} RunOnOrphan(sys: System, actions: seq<Action>, c: nat, s: Id)
    requires Sound(sys) && c < |sys.callers| && PricedCharge(sys.db, s) && TriesOrphan(sys.db, sys.callers[c], s)
    ensures var last := Run(sys, actions);
            c < |last.callers| && PricedCharge(last.db, s) && TriesOrphan(last.db, last.callers[c], s)
  {
    if actions != [] {
      RunOnOrphan(sys, actions[..|actions| - 1], c, s);
      RunStaysSound(sys, actions[..|actions| - 1]);
      NextSound(Run(sys, actions[..|actions| - 1]), actions[|actions| - 1]);
      StepOnOrphan(Run(sys, actions[..|actions| - 1]), actions[|actions| - 1], c, s);
    }
  }

  lemma ReturnedOnOrphan(start: System, rest: seq<Action>, s: Id)
    requires Sound(start) && PricedCharge(start.db, s)
    requires Returned(start, Run(Next(start, Call(SettleRead(s))), rest))
    ensures s !in Sw.Orphans(Run(Next(start, Call(SettleRead(s))), rest).db)
  {
    NextSound(start, Call(SettleRead(s)));
    RunOnOrphan(Next(start, Call(SettleRead(s))), rest, |start.callers|, s);
  }

  // A call that has returned leaves its charge no orphan, whoever else was at work.
  lemma AttemptedOrphan(sys: System, actions: seq<Action>, s: Id)
    requires Sound(sys) && PricedCharge(sys.db, s) && Attempted(sys, actions, s)
    ensures s !in Sw.Orphans(Run(sys, actions).db)
  {
    var before, rest :| CallReturned(sys, before, rest, s) && actions == before + [Call(SettleRead(s))] + rest;
    RunStaysSound(sys, before);
    PricedStays(sys, before, s);
    ReturnedOnOrphan(Run(sys, before), rest, s);
    RunCall(sys, before, Call(SettleRead(s)), rest);
  }

  lemma {:induction false} PricedStays(sys: System, actions: seq<Action>, s: Id)
    requires Sound(sys) && PricedCharge(sys.db, s)
    ensures PricedCharge(Run(sys, actions).db, s)
  {
    if actions != [] {
      PricedStays(sys, actions[..|actions| - 1], s);
      RunStaysSound(sys, actions[..|actions| - 1]);
      NextSound(Run(sys, actions[..|actions| - 1]), actions[|actions| - 1]);
    }
  }

  // A call on a charge with a due row is on its way to that row, or the row is no longer due.
  predicate TriesDue(db: Db, c: Caller, s: Id, p: Id, instant: Option<int>) {
    || p !in Sw.DueBy(db, instant)
    || ((c.SettleRead? || c.SettleWallet? || c.SettleFind?) && c.session == s)
    || ((c.SettleCollect? || c.SettleBook?) && c.payment == p)
  }

  predicate RowOn(db: Db, p: Id, s: Id) {
    p < |db.payments| && db.payments[p].session == Some(s)
  }

  lemma OwnStepOnDue(db: Db, c: Caller, s: Id, p: Id, at: int, now: int)
    requires DbSound(db) && CallerSound(db, c) && RowOn(db, p, s) && at + RETRY_BASE_MS > now
    requires TriesDue(db, c, s, p, Some(now)) && p in Sw.DueBy(db, Some(now))
    ensures TriesDue(StepCaller(db, c, at).0, StepCaller(db, c, at).1, s, p, Some(now))
  {
    Sw.WaitingMeansLiveRow(db, p);
  }

  lemma StepOnDue(sys: System, a: Action, c: nat, s: Id, p: Id, now: int)
    requires Sound(sys) && OnTime(a, now) && c < |sys.callers| && RowOn(sys.db, p, s)
    requires TriesDue(sys.db, sys.callers[c], s, p, Some(now))
    ensures var next := Next(sys, a);
            c < |next.callers| && RowOn(next.db, p, s) && TriesDue(next.db, next.callers[c], s, p, Some(now))
  {
    var next := Next(sys, a);
    StepMovesRows(sys, a, now);
    assert RowMoves(sys.db.payments[p], next.db.payments[p], now);
    if p in Sw.DueBy(next.db, Some(now)) {
      DueStaysDue(sys.db, next.db, p, Some(now), now);
      if a.Advance? && a.index == c {
        assert CallerSound(sys.db, sys.callers[c]);
        OwnStepOnDue(sys.db, sys.callers[c], s, p, a.now, now);
      }
    }
  }

  lemma {:induction false} RunOnDue(sys: System, actions: seq<Action>, c: nat, s: Id, p: Id, now: int)
    requires Sound(sys) && AllOnTime(actions, now) && c < |sys.callers| && RowOn(sys.db, p, s)
    requires TriesDue(sys.db, sys.callers[c], s, p, Some(now))
    ensures var last := Run(sys, actions);
            c < |last.callers| && RowOn(last.db, p, s) && TriesDue(last.db, last.callers[c], s, p, Some(now))
  {
    if actions != [] {
      RunOnDue(sys, actions[..|actions| - 1], c, s, p, now);
      RunStaysSound(sys, actions[..|actions| - 1]);
      StepOnDue(Run(sys, actions[..|actions| - 1]), actions[|actions| - 1], c, s, p, now);
    }
  }

  lemma ReturnedOnDue(start: System, rest: seq<Action>, s: Id, p: Id, now: int)
    requires Sound(start) && AllOnTime(rest, now) && RowOn(start.db, p, s)
    requires Returned(start, Run(Next(start, Call(SettleRead(s))), rest))
    ensures p !in Sw.DueBy(Run(Next(start, Call(SettleRead(s))), rest).db, Some(now))
  {
    NextSound(start, Call(SettleRead(s)));
    RunOnDue(Next(start, Call(SettleRead(s))), rest, |start.callers|, s, p, now);
  }

  lemma RowStaysOn(sys: System, actions: seq<Action>, p: Id, s: Id, now: int)
    requires Sound(sys) && AllOnTime(actions, now) && RowOn(sys.db, p, s)
    ensures RowOn(Run(sys, actions).db, p, s)
  {
    RunLeads(sys, actions, None, now);
    assert RowMoves(sys.db.payments[p], Run(sys, actions).db.payments[p], now);
  }

  lemma PartsOnTime(before: seq<Action>, a: Action, rest: seq<Action>, now: int)
    requires AllOnTime(before + [a] + rest, now)
    ensures AllOnTime(before, now) && AllOnTime(rest, now)
  {
    var all := before + [a] + rest;
    assert forall k :: 0 <= k < |before| ==> all[k] == before[k];
    assert forall k :: 0 <= k < |rest| ==> all[|before| + 1 + k] == rest[k];
  }

  // A call that has returned leaves the row it was made for paid, or waiting past the sweep's own instant.
  lemma AttemptedDue(sys: System, actions: seq<Action>, p: Id, now: int)
    requires Sound(sys) && AllOnTime(actions, now) && Sw.Waiting(sys.db, p)
    requires Attempted(sys, actions, Sw.SessionOf(sys.db, p))
    ensures p !in Sw.DueBy(Run(sys, actions).db, Some(now))
  {
    var s := Sw.SessionOf(sys.db, p);
    var before, rest :| CallReturned(sys, before, rest, s) && actions == before + [Call(SettleRead(s))] + rest;
    PartsOnTime(before, Call(SettleRead(s)), rest, now);
    RunStaysSound(sys, before);
    RowStaysOn(sys, before, p, s, now);
    ReturnedOnDue(Run(sys, before), rest, s, p, now);
    RunCall(sys, before, Call(SettleRead(s)), rest);
  }

  /* --------------------------------- the line -------------------------------- */

  // How far back a place in the line can be: an orphan may cost two attempts, one that only adds its row
  // while somebody else holds it, and one for the row.
  function Line(db: Db, instant: Option<int>): nat {
    2 * |Sw.Orphans(db)| + |Sw.DueBy(db, instant)|
  }

  function Added(db: Db, db': Db, instant: Option<int>): set<Id> {
    set p | p in Sw.DueBy(db', instant) && p >= |db.payments|
  }

  function SessionsOf(db: Db, rows: set<Id>): set<Id> {
    set p | p in rows :: Sw.SessionOf(db, p)
  }

  lemma OneMoreSession(db: Db, rows: set<Id>, p: Id)
    requires Indexed(db.payments) && p !in rows && Sw.Waiting(db, p)
    requires forall q :: q in rows ==> Sw.Waiting(db, q)
    ensures |SessionsOf(db, rows + {p})| == |SessionsOf(db, rows)| + 1
  {
    var s := Sw.SessionOf(db, p);
    forall q | q in rows ensures Sw.SessionOf(db, q) != s {
      assert Sw.Waiting(db, q) && db.payments[p].session != db.payments[q].session;
    }
    assert s !in SessionsOf(db, rows);
    SessionsAddUp(db, rows, p);
  }

  lemma SessionsAddUp(db: Db, rows: set<Id>, p: Id)
    ensures SessionsOf(db, rows + {p}) == SessionsOf(db, rows) + {Sw.SessionOf(db, p)}
  {
  }

  // As many charges as rows, where no two rows are for one charge.
  lemma {:induction false} AsManySessions(db: Db, rows: set<Id>)
    requires Indexed(db.payments) && forall p :: p in rows ==> Sw.Waiting(db, p)
    ensures |SessionsOf(db, rows)| == |rows|
    decreases |rows|
  {
    if rows != {} {
      var p :| p in rows;
      AsManySessions(db, rows - {p});
      OneMoreSession(db, rows - {p}, p);
      assert (rows - {p}) + {p} == rows;
    }
  }

  lemma AddedWereOrphans(db: Db, db': Db, priced: set<Id>, instant: Option<int>)
    requires Leads(db, db', priced, instant) && Indexed(db'.payments)
    ensures |Sw.Orphans(db')| + |Added(db, db', instant)| <= |Sw.Orphans(db) + priced|
  {
    var added := Added(db, db', instant);
    AsManySessions(db', added);
    var sessions := SessionsOf(db', added);
    forall s | s in sessions ensures s !in Sw.Orphans(db') {
      var p :| p in added && Sw.SessionOf(db', p) == s;
      assert db'.payments[p].session == Some(s);
    }
    Sw.FewerOf(Sw.Orphans(db') + sessions, Sw.Orphans(db) + priced);
    assert Sw.Orphans(db') !! sessions;
  }

  lemma PartsOf(a: set<Id>, b: set<Id>, whole: set<Id>)
    requires a !! b && a <= whole && b <= whole
    ensures |a| + |b| <= |whole|
  {
    assert |a + b| == |a| + |b|;
    Sw.FewerOf(a + b, whole);
  }

  lemma DueMoves(db: Db, db': Db, priced: set<Id>, instant: Option<int>, due: set<Id>)
    requires Leads(db, db', priced, instant)
    requires due <= Sw.DueBy(db, instant) && due !! Sw.DueBy(db', instant)
    ensures |Sw.DueBy(db', instant)| + |due| <= |Sw.DueBy(db, instant)| + |Added(db, db', instant)|
  {
    var added := Added(db, db', instant);
    var kept := Sw.DueBy(db', instant) - added;
    PartsOf(kept, due, Sw.DueBy(db, instant));
    assert Sw.DueBy(db', instant) == kept + added;
  }

  lemma OrphansMove(db: Db, db': Db, priced: set<Id>, instant: Option<int>, orphans: set<Id>)
    requires Leads(db, db', priced, instant)
    requires orphans <= Sw.Orphans(db) && orphans !! Sw.Orphans(db')
    ensures |Sw.Orphans(db')| + |orphans| <= |Sw.Orphans(db) + priced| <= |Sw.Orphans(db)| + |priced|
  {
    PartsOf(Sw.Orphans(db'), orphans, Sw.Orphans(db) + priced);
  }

  // Over a stretch the line grows by two for each session priced, and shrinks by one for each orphan that
  // stopped being one and each due row that stopped being due.
  lemma LineMoves(db: Db, db': Db, priced: set<Id>, instant: Option<int>, orphans: set<Id>, due: set<Id>)
    requires Leads(db, db', priced, instant) && Indexed(db'.payments)
    requires orphans <= Sw.Orphans(db) && orphans !! Sw.Orphans(db')
    requires due <= Sw.DueBy(db, instant) && due !! Sw.DueBy(db', instant)
    ensures Line(db', instant) + |orphans| + |due| <= Line(db, instant) + 2 * |priced|
  {
    AddedWereOrphans(db, db', priced, instant);
    OrphansMove(db, db', priced, instant, orphans);
    DueMoves(db, db', priced, instant, due);
  }

  /* --------------------------------- the passes ------------------------------ */

  // One sweep among everything else: the state its first query found, what happened before its second query,
  // what happened from there until the next sweep began, and what the queries answered.
  datatype Pass = Pass(
    found: System, between: seq<Action>, working: seq<Action>, orphans: seq<Id>, due: seq<Id>, now: int)

  function Mid(pass: Pass): System {
    Run(pass.found, pass.between)
  }

  function After(pass: Pass): System {
    Run(Mid(pass), pass.working)
  }

  ghost predicate ValidPass(pass: Pass, limit: nat) {
    var db, mid := pass.found.db, Mid(pass).db;
    && Sound(pass.found)
    && Sw.Answers(Sw.Orphans(db), Sw.EndOf(db), limit, pass.orphans)
    && Sw.Answers(Sw.DueBy(mid, Some(pass.now)), Sw.NextAttemptOf(mid), limit - |pass.orphans|, pass.due)
    && AllOnTime(pass.between, pass.now) && AllOnTime(pass.working, pass.now)
    && (forall i :: 0 <= i < |pass.orphans| ==> Attempted(Mid(pass), pass.working, pass.orphans[i]))
    && (forall i :: 0 <= i < |pass.due| ==> Attempted(Mid(pass), pass.working, Sw.SessionOf(mid, pass.due[i])))
  }

  function Arrivals(pass: Pass): nat {
    |PricedIn(pass.between)| + |PricedIn(pass.working)|
  }

  lemma PassIsSound(pass: Pass, limit: nat)
    requires ValidPass(pass, limit)
    ensures Sound(Mid(pass)) && Sound(After(pass))
  {
    RunStaysSound(pass.found, pass.between);
    RunStaysSound(Mid(pass), pass.working);
  }

  // Every orphan on the worklist is one no longer.
  lemma OrphansAreDealtWith(pass: Pass, limit: nat)
    requires ValidPass(pass, limit)
    ensures Sw.Members(pass.orphans) <= Sw.Orphans(pass.found.db)
    ensures Sw.Members(pass.orphans) !! Sw.Orphans(After(pass).db)
  {
    PassIsSound(pass, limit);
    forall s | s in pass.orphans ensures s in Sw.Orphans(pass.found.db) && s !in Sw.Orphans(After(pass).db) {
      var i :| 0 <= i < |pass.orphans| && pass.orphans[i] == s;
      assert pass.orphans[i] in Sw.Orphans(pass.found.db);
      PricedStays(pass.found, pass.between, s);
      assert Attempted(Mid(pass), pass.working, pass.orphans[i]);
      AttemptedOrphan(Mid(pass), pass.working, s);
    }
  }

  // Every due row on it is paid, or waits past the sweep.
  lemma DueAreDealtWith(pass: Pass, limit: nat)
    requires ValidPass(pass, limit)
    ensures Sw.Members(pass.due) <= Sw.DueBy(Mid(pass).db, Some(pass.now))
    ensures Sw.Members(pass.due) !! Sw.DueBy(After(pass).db, Some(pass.now))
  {
    PassIsSound(pass, limit);
    forall p | p in pass.due
      ensures p in Sw.DueBy(Mid(pass).db, Some(pass.now)) && p !in Sw.DueBy(After(pass).db, Some(pass.now))
    {
      var i :| 0 <= i < |pass.due| && pass.due[i] == p;
      assert pass.due[i] in Sw.DueBy(Mid(pass).db, Some(pass.now));
      assert Attempted(Mid(pass), pass.working, Sw.SessionOf(Mid(pass).db, pass.due[i]));
      AttemptedDue(Mid(pass), pass.working, p, pass.now);
    }
  }

  lemma DueByLater(db: Db, instant: Option<int>, later: Option<int>)
    requires NoLater(instant, later)
    ensures Sw.DueBy(db, instant) <= Sw.DueBy(db, later)
  {
  }

  // A candidate left out means that the batch was full, and that all that was picked comes no later.
  lemma LeftOut(candidates: set<Id>, key: Id -> Option<int>, limit: nat, ids: seq<Id>, x: Id)
    requires Sw.Answers(candidates, key, limit, ids) && x in candidates && x !in ids
    ensures |ids| == limit && forall i :: 0 <= i < |ids| ==> NoLater(key(ids[i]), key(x))
  {
    assert x in candidates - Sw.Members(ids);
    Sw.DistinctCount(ids, candidates);
  }

  // A row that is still due after the pass was due all along, and was not picked.
  lemma StillWaiting(pass: Pass, limit: nat, target: Id, due: Option<int>)
    requires ValidPass(pass, limit) && NoLater(due, Some(pass.now)) && target < |pass.found.db.payments|
    requires Sw.StillDue(After(pass).db, target, due)
    ensures Sw.StillDue(Mid(pass).db, target, due) && target in Sw.DueBy(Mid(pass).db, Some(pass.now))
    ensures target !in pass.due
  {
    PassIsSound(pass, limit);
    RunLeads(pass.found, pass.between, due, pass.now);
    RunLeads(Mid(pass), pass.working, due, pass.now);
    DueStaysDue(Mid(pass).db, After(pass).db, target, due, pass.now);
    DueAreDealtWith(pass, limit);
    DueByLater(Mid(pass).db, due, Some(pass.now));
    DueByLater(After(pass).db, due, Some(pass.now));
    assert target in Sw.DueBy(After(pass).db, due);
    assert target !in Sw.Members(pass.due);
  }

  lemma PickedComeFirst(pass: Pass, limit: nat, target: Id, due: Option<int>)
    requires ValidPass(pass, limit) && NoLater(due, Some(pass.now))
    requires Sw.StillDue(Mid(pass).db, target, due) && target in Sw.DueBy(Mid(pass).db, Some(pass.now))
    requires target !in pass.due
    ensures |pass.orphans| + |pass.due| == limit
    ensures Sw.Members(pass.due) <= Sw.DueBy(Mid(pass).db, due)
  {
    var mid := Mid(pass).db;
    LeftOut(Sw.DueBy(mid, Some(pass.now)), Sw.NextAttemptOf(mid), limit - |pass.orphans|, pass.due, target);
    forall p | p in pass.due ensures p in Sw.DueBy(mid, due) {
      var i :| 0 <= i < |pass.due| && pass.due[i] == p;
      assert pass.due[i] in Sw.DueBy(mid, Some(pass.now));
      assert NoLater(Sw.NextAttemptOf(mid)(pass.due[i]), Sw.NextAttemptOf(mid)(target));
    }
  }

  lemma FirstStretch(pass: Pass, limit: nat, due: Option<int>)
    requires ValidPass(pass, limit) && NoLater(due, Some(pass.now))
    ensures Line(Mid(pass).db, due) + |Sw.Members(pass.orphans) - Sw.Orphans(Mid(pass).db)|
            <= Line(pass.found.db, due) + 2 * |PricedIn(pass.between)|
  {
    var early := Sw.Members(pass.orphans) - Sw.Orphans(Mid(pass).db);
    PassIsSound(pass, limit);
    OrphansAreDealtWith(pass, limit);
    RunLeads(pass.found, pass.between, due, pass.now);
    LineMoves(pass.found.db, Mid(pass).db, PricedIn(pass.between), due, early, {});
  }

  lemma SecondStretch(pass: Pass, limit: nat, due: Option<int>)
    requires ValidPass(pass, limit) && NoLater(due, Some(pass.now))
    requires Sw.Members(pass.due) <= Sw.DueBy(Mid(pass).db, due)
    ensures Line(After(pass).db, due) + |Sw.Members(pass.orphans) * Sw.Orphans(Mid(pass).db)| + |pass.due|
            <= Line(Mid(pass).db, due) + 2 * |PricedIn(pass.working)|
  {
    var late := Sw.Members(pass.orphans) * Sw.Orphans(Mid(pass).db);
    PassIsSound(pass, limit);
    OrphansAreDealtWith(pass, limit);
    DueAreDealtWith(pass, limit);
    DueByLater(After(pass).db, due, Some(pass.now));
    RunLeads(Mid(pass), pass.working, due, pass.now);
    LineMoves(Mid(pass).db, After(pass).db, PricedIn(pass.working), due, late, Sw.Members(pass.due));
    Sw.DistinctSize(pass.due);
  }

  lemma EarlyAndLate(orphans: seq<Id>, mid: set<Id>)
    requires Distinct(orphans)
    ensures |Sw.Members(orphans) - mid| + |Sw.Members(orphans) * mid| == |orphans|
  {
    Sw.DistinctSize(orphans);
    assert Sw.Members(orphans) == (Sw.Members(orphans) - mid) + Sw.Members(orphans) * mid;
  }

  // A pass that leaves the target due brings it `limit` places forward, whatever happened meanwhile, less
  // two places for each session that was priced meanwhile.
  lemma PassedOver(pass: Pass, limit: nat, target: Id, due: Option<int>)
    requires ValidPass(pass, limit) && NoLater(due, Some(pass.now)) && target < |pass.found.db.payments|
    requires Sw.StillDue(After(pass).db, target, due)
    ensures 1 <= Line(After(pass).db, due)
    ensures Line(After(pass).db, due) + limit <= Line(pass.found.db, due) + 2 * Arrivals(pass)
  {
    StillWaiting(pass, limit, target, due);
    PickedComeFirst(pass, limit, target, due);
    FirstStretch(pass, limit, due);
    SecondStretch(pass, limit, due);
    EarlyAndLate(pass.orphans, Sw.Orphans(Mid(pass).db));
    assert target in Sw.DueBy(After(pass).db, due);
  }

  /* --------------------------------- fairness -------------------------------- */

  ghost predicate Contiguous(passes: seq<Pass>) {
    forall j, k :: 0 <= j < k < |passes| && k == j + 1 ==> passes[k].found == After(passes[j])
  }

  // Passes one after another, from an instant at which the target is already due.
  ghost predicate Passes(passes: seq<Pass>, limit: nat, due: Option<int>) {
    && (forall k :: 0 <= k < |passes| ==> ValidPass(passes[k], limit) && NoLater(due, Some(passes[k].now)))
    && Contiguous(passes)
  }

  function AllArrivals(passes: seq<Pass>): nat {
    if passes == [] then 0 else AllArrivals(passes[..|passes| - 1]) + Arrivals(passes[|passes| - 1])
  }

  // The row is paid, or was tried and failed, and waits past the sweep that tried it.
  predicate ActedOn(pass: Pass, target: Id) {
    target < |After(pass).db.payments|
    && var row := After(pass).db.payments[target];
       row.status == Paid || (row.nextAttemptAt.Some? && row.nextAttemptAt.value > pass.now)
  }

  // A row that is not due any more was acted on.
  lemma NotDueWasActedOn(pass: Pass, limit: nat, target: Id, due: Option<int>)
    requires ValidPass(pass, limit) && Sw.StillDue(pass.found.db, target, due)
    requires !Sw.StillDue(After(pass).db, target, due)
    ensures ActedOn(pass, target)
  {
    PassIsSound(pass, limit);
    RunLeads(pass.found, pass.between, None, pass.now);
    RunLeads(Mid(pass), pass.working, None, pass.now);
    MovesOn(pass.found.db, Mid(pass).db, After(pass).db, pass.now);
    assert RowMoves(pass.found.db.payments[target], After(pass).db.payments[target], pass.now);
  }

  // A pass that does not act on the target leaves it due, and nearer.
  ghost predicate Nearer(pass: Pass, limit: nat, target: Id, due: Option<int>) {
    && Sw.StillDue(After(pass).db, target, due) && 1 <= Line(After(pass).db, due)
    && Line(After(pass).db, due) + limit <= Line(pass.found.db, due) + 2 * Arrivals(pass)
  }

  lemma UnlessActedOn(pass: Pass, limit: nat, target: Id, due: Option<int>)
    requires ValidPass(pass, limit) && NoLater(due, Some(pass.now)) && Sw.StillDue(pass.found.db, target, due)
    ensures ActedOn(pass, target) || Nearer(pass, limit, target, due)
  {
    if Sw.StillDue(After(pass).db, target, due) {
      PassedOver(pass, limit, target, due);
    } else {
      NotDueWasActedOn(pass, limit, target, due);
    }
  }

  // What the passes so far have come to, as long as none of them acted on the target.
  ghost predicate Approached(passes: seq<Pass>, limit: nat, target: Id, due: Option<int>)
    requires passes != []
  {
    var last := After(passes[|passes| - 1]).db;
    && Sw.StillDue(last, target, due) && 1 <= Line(last, due)
    && Line(last, due) + |passes| * limit <= Line(passes[0].found.db, due) + 2 * AllArrivals(passes)
  }

  lemma OneNearer(passes: seq<Pass>, limit: nat, target: Id, due: Option<int>)
    requires passes != [] && Nearer(passes[|passes| - 1], limit, target, due)
    requires |passes| > 1 ==> Approached(passes[..|passes| - 1], limit, target, due)
    requires |passes| > 1 ==> passes[|passes| - 1].found == After(passes[|passes| - 2])
    ensures Approached(passes, limit, target, due)
  {
    OneMoreBatch(|passes| - 1, limit);
    assert |passes| == 1 ==> AllArrivals(passes[..|passes| - 1]) == 0;
  }

  lemma OneMoreBatch(n: nat, limit: nat)
    ensures (n + 1) * limit == n * limit + limit
  {
  }

  lemma {:induction false} MovesUp(passes: seq<Pass>, limit: nat, target: Id, due: Option<int>)
    requires Passes(passes, limit, due) && passes != [] && Sw.StillDue(passes[0].found.db, target, due)
    requires forall k :: 0 <= k < |passes| ==> !ActedOn(passes[k], target)
    ensures Approached(passes, limit, target, due)
  {
    var n := |passes| - 1;
    if n > 0 {
      MovesUp(passes[..n], limit, target, due);
      assert passes[n].found == After(passes[n - 1]);
    }
    UnlessActedOn(passes[n], limit, target, due);
    OneNearer(passes, limit, target, due);
  }

  // In every interleaving of any number of callers, with sessions ending, orders, reversals and wallets frozen
  // at any moment, and between any two steps of the sweep itself: a due payment is acted on within as many
  // sweeps as it takes to clear the line `limit` at a time, new arrivals included.
  lemma NobodyStarvesAmongCallers(earlier: seq<Action>, passes: seq<Pass>, limit: nat, target: Id, due: Option<int>)
    returns (k: nat)
    requires passes != [] && passes[0].found == Run(EMPTY, earlier) && Passes(passes, limit, due)
    requires Sw.StillDue(passes[0].found.db, target, due)
    requires |passes| * limit >= Line(passes[0].found.db, due) + 2 * AllArrivals(passes)
    ensures k < |passes| && ActedOn(passes[k], target)
  {
    if forall j :: 0 <= j < |passes| ==> !ActedOn(passes[j], target) {
      MovesUp(passes, limit, target, due);
      assert false;
    }
    k :| 0 <= k < |passes| && ActedOn(passes[k], target);
  }

  /* -------------------------- a sweep that runs alone ------------------------ */

  lemma {:induction false} NobodyArrives(actions: seq<Action>)
    requires OneCaller(actions)
    ensures PricedIn(actions) == {}
  {
    if actions != [] {
      NobodyArrives(actions[..|actions| - 1]);
    }
  }

  lemma {:induction false} DoneStaysDone(sys: System, actions: seq<Action>, c: nat)
    requires c < |sys.callers| && Done(sys.callers[c])
    ensures c < |Run(sys, actions).callers| && Done(Run(sys, actions).callers[c])
  {
    if actions != [] {
      DoneStaysDone(sys, actions[..|actions| - 1], c);
    }
  }

  lemma Regroup<T>(first: seq<T>, before: seq<T>, call: seq<T>, rest: seq<T>, more: seq<T>)
    ensures first + (before + call + rest) == (first + before) + call + rest
    ensures (before + call + rest) + more == before + call + (rest + more)
  {
  }

  lemma AttemptedBefore(sys: System, first: seq<Action>, more: seq<Action>, s: Id)
    requires Attempted(sys, first, s)
    ensures Attempted(sys, first + more, s)
  {
    var before, rest :| CallReturned(sys, before, rest, s) && first == before + [Call(SettleRead(s))] + rest;
    StaysReturned(Run(sys, before), rest, more, s);
    assert CallReturned(sys, before, rest + more, s);
    Regroup(first, before, [Call(SettleRead(s))], rest, more);
  }

  lemma StaysReturned(start: System, rest: seq<Action>, more: seq<Action>, s: Id)
    requires Returned(start, Run(Next(start, Call(SettleRead(s))), rest))
    ensures Returned(start, Run(Next(start, Call(SettleRead(s))), rest + more))
  {
    var called := Next(start, Call(SettleRead(s)));
    RunThen(called, rest, more);
    DoneStaysDone(Run(called, rest), more, |start.callers|);
  }

  lemma AttemptedAfter(sys: System, first: seq<Action>, more: seq<Action>, s: Id)
    requires Attempted(Run(sys, first), more, s)
    ensures Attempted(sys, first + more, s)
  {
    var before, rest :|
      CallReturned(Run(sys, first), before, rest, s) && more == before + [Call(SettleRead(s))] + rest;
    RunThen(sys, first, before);
    assert CallReturned(sys, first + before, rest, s);
    Regroup(first, before, [Call(SettleRead(s))], rest, more);
  }

  lemma FirstCallReturned(sys: System, actions: seq<Action>, s: Id)
    requires actions != [] && actions[0] == Call(SettleRead(s)) && Returned(sys, Run(sys, actions))
    ensures Attempted(sys, actions, s)
  {
    assert actions == [] + [actions[0]] + actions[1..];
    RunCall(sys, [], actions[0], actions[1..]);
    assert CallReturned(sys, [], actions[1..], s);
  }

  // A list of attempts made one after another is a run in which each of them is made and returns.
  lemma {:induction false} EachAsActions(sys: System, ids: seq<Id>, times: seq<int>, now: int)
    returns (more: seq<Action>)
    requires |times| == |ids| && forall i :: 0 <= i < |times| ==> times[i] >= now
    ensures OneCaller(more) && AllOnTime(more, now)
    ensures Run(sys, more).db == Sw.SettleEach(sys.db, ids, times).0
    ensures forall i :: 0 <= i < |ids| ==> Attempted(sys, more, ids[i])
    decreases |ids|
  {
    if ids == [] {
      more := [];
    } else {
      var first := SettleAsActions(sys, ids[0], times[0]);
      FirstCallReturned(sys, first, ids[0]);
      var rest := EachAsActions(Run(sys, first), ids[1..], times[1..], now);
      RunThen(sys, first, rest);
      more := first + rest;
      forall i | 0 <= i < |ids| ensures Attempted(sys, more, ids[i]) {
        if i == 0 {
          AttemptedBefore(sys, first, rest, ids[0]);
        } else {
          assert ids[1..][i - 1] == ids[i];
          AttemptedAfter(sys, first, rest, ids[i]);
        }
      }
    }
  }

  // The uninterrupted sweep is itself such a pass, into whose stretches nobody comes: so what is proved of it
  // is proved of states that runs reach, and what is proved here holds of it.
  lemma SweepAsActions(sys: System, limit: nat, call: Sw.Call) returns (pass: Pass)
    requires Sound(sys) && Sw.ValidCall(sys.db, limit, call)
    ensures pass.found == sys && ValidPass(pass, limit) && Arrivals(pass) == 0
    ensures pass.orphans == call.orphans && pass.due == call.due && pass.now == call.now
    ensures After(pass).db == Sw.Sweep(sys.db, call)
  {
    var working := EachAsActions(sys, Sw.Worklist(sys.db, call), call.times, call.now);
    NobodyArrives(working);
    WholeWorklist(sys, call, working);
    pass := Pass(sys, [], working, call.orphans, call.due, call.now);
  }

  lemma WholeWorklist(sys: System, call: Sw.Call, working: seq<Action>)
    requires var work := Sw.Worklist(sys.db, call); forall i :: 0 <= i < |work| ==> Attempted(sys, working, work[i])
    ensures forall i :: 0 <= i < |call.orphans| ==> Attempted(sys, working, call.orphans[i])
    ensures forall i :: 0 <= i < |call.due| ==> Attempted(sys, working, Sw.SessionOf(sys.db, call.due[i]))
  {
    var work := Sw.Worklist(sys.db, call);
    forall i | 0 <= i < |call.orphans| ensures Attempted(sys, working, call.orphans[i]) {
      assert work[i] == call.orphans[i];
    }
    forall i | 0 <= i < |call.due| ensures Attempted(sys, working, Sw.SessionOf(sys.db, call.due[i])) {
      assert work[|call.orphans| + i] == Sw.SessionOf(sys.db, call.due[i]);
    }
  }

  lemma OneSweepCanRun(sys: System, limit: nat, now: int) returns (pass: Pass)
    requires Sound(sys)
    ensures pass.found == sys && pass.now == now && ValidPass(pass, limit) && Arrivals(pass) == 0
  {
    var orphans := Sw.AnswerExists(Sw.Orphans(sys.db), Sw.EndOf(sys.db), limit);
    var due := Sw.AnswerExists(Sw.DueBy(sys.db, Some(now)), Sw.NextAttemptOf(sys.db), limit - |orphans|);
    pass := SweepAsActions(sys, limit, Sw.Call(now, orphans, due, seq(|orphans| + |due|, _ => now)));
  }

  lemma OnePassMore(passes: seq<Pass>, pass: Pass, limit: nat, due: Option<int>)
    requires Passes(passes, limit, due) && ValidPass(pass, limit) && NoLater(due, Some(pass.now))
    requires passes != [] ==> pass.found == After(passes[|passes| - 1])
    ensures Passes(passes + [pass], limit, due)
  {
    var longer := passes + [pass];
    forall k | 0 <= k < |longer| ensures ValidPass(longer[k], limit) && NoLater(due, Some(longer[k].now)) {
      assert longer[k] == if k < |passes| then passes[k] else pass;
    }
    OneMoreContiguous(passes, pass);
  }

  lemma OneMoreContiguous(passes: seq<Pass>, pass: Pass)
    requires Contiguous(passes) && (passes != [] ==> pass.found == After(passes[|passes| - 1]))
    ensures Contiguous(passes + [pass])
  {
    var longer := passes + [pass];
    forall j, k | 0 <= j < k < |longer| && k == j + 1 ensures longer[k].found == After(longer[j]) {
      assert longer[j] == passes[j] && longer[k] == if k < |passes| then passes[k] else pass;
    }
  }

  // From every state that a run reaches, any number of sweeps can follow with nobody arriving: so there always
  // are enough of them to reach whoever is due.
  lemma {:induction false} SweepsCanRun(sys: System, limit: nat, due: Option<int>, now: int, n: nat)
    returns (passes: seq<Pass>)
    requires Sound(sys) && NoLater(due, Some(now))
    ensures |passes| == n && Passes(passes, limit, due) && AllArrivals(passes) == 0
    ensures n > 0 ==> passes[0].found == sys
    decreases n
  {
    if n == 0 {
      passes := [];
    } else {
      var before := SweepsCanRun(sys, limit, due, now, n - 1);
      if n > 1 {
        PassIsSound(before[n - 2], limit);
      }
      var pass := OneSweepCanRun(if n == 1 then sys else After(before[n - 2]), limit, now);
      OnePassMore(before, pass, limit, due);
      passes := before + [pass];
      assert passes[..n - 1] == before;
    }
  }
}
