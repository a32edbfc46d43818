// Revenue as the analytics report it, against the ledger that settlement wrote.

module Revenue {
  import opened Options
  import opened Sums
  import opened Settlement
  import opened Books
  import Analytics
  import Days
  import Grouping

  function RowOf(p: Payment, company: Option<nat>): Analytics.PaymentRow {
    Analytics.PaymentRow(company, p.purpose, p.status, p.amount, p.paidAt, p.session)
  }

  // The payment collection as the analytics read it. Which company sold a charge is not part of
  // settlement: the rows may name any.
  predicate Shows(rows: seq<Analytics.PaymentRow>, payments: seq<Payment>) {
    |rows| == |payments| && forall i :: 0 <= i < |rows| ==> rows[i] == RowOf(payments[i], rows[i].company)
  }

  predicate Within(row: Analytics.PaymentRow, scope: Analytics.Scope) {
    (scope.company.None? || row.company == scope.company) && Analytics.InWindow(row.paidAt, scope.range)
  }

  // What the ledger took for sessions, and how often, for the rows in a scope.
  function Debited(rows: seq<Analytics.PaymentRow>, scope: Analytics.Scope): Entry -> int {
    (e: Entry) => if e.kind == SessionDebit && e.payment < |rows| && Within(rows[e.payment], scope) then e.amount else 0
  }

  function DebitsWithin(rows: seq<Analytics.PaymentRow>, scope: Analytics.Scope): Entry -> int {
    (e: Entry) => if e.kind == SessionDebit && e.payment < |rows| && Within(rows[e.payment], scope) then 1 else 0
  }

  // And for all rows.
  function DebitedEver(): Entry -> int {
    (e: Entry) => if e.kind == SessionDebit then e.amount else 0
  }

  /* ------------------------------ ledger and rows ---------------------------- */

  function PaidBy(): Entry -> int {
    (e: Entry) => e.payment as int
  }

  function Worthy(scope: Analytics.Scope, worth: Analytics.PaymentRow -> int): Analytics.PaymentRow -> int {
    (r: Analytics.PaymentRow) => if Within(r, scope) then worth(r) else 0
  }

  function Collected(worth: Analytics.PaymentRow -> int): Analytics.PaymentRow -> int {
    (r: Analytics.PaymentRow) => if r.purpose == SessionCollection && r.status == Paid then worth(r) else 0
  }

  lemma {:induction false} SumScaled<T>(s: seq<T>, f: T -> int, g: T -> int, factor: int)
    requires forall i :: 0 <= i < |s| ==> g(s[i]) == factor * f(s[i])
    ensures Sum(s, g) == factor * Sum(s, f)
  {
    if s != [] {
      var t := s[..|s| - 1];
      assert forall i :: 0 <= i < |t| ==> t[i] == s[i];
      SumScaled(t, f, g, factor);
    }
  }

  // Each debit weighs what its row is worth.
  ghost predicate Weighed(ledger: seq<Entry>, rows: seq<Analytics.PaymentRow>, weight: Entry -> int,
                          worth: Analytics.PaymentRow -> int)
  {
    forall i :: 0 <= i < |ledger| ==>
      ledger[i].payment < |rows|
      && weight(ledger[i]) == if ledger[i].kind == SessionDebit then worth(rows[ledger[i].payment]) else 0
  }

  // A row's debits weigh what it is worth if it is a collected session, and nothing if not.
  lemma DebitsOfOne(db: Db, rows: seq<Analytics.PaymentRow>, weight: Entry -> int,
                    worth: Analytics.PaymentRow -> int, p: Id)
    requires LedgerSound(db) && Shows(rows, db.payments) && Weighed(db.ledger, rows, weight, worth) && p < |rows|
    ensures Sum(db.ledger, Grouping.Keyed(PaidBy(), p as int, weight)) == ByIndex(rows, Collected(worth))(p)
  {
    forall i | 0 <= i < |db.ledger|
      ensures Grouping.Keyed(PaidBy(), p as int, weight)(db.ledger[i])
              == worth(rows[p]) * Hits(SessionDebit, p)(db.ledger[i])
    {
      assert EntrySound(db, db.ledger[i]);
    }
    SumScaled(db.ledger, Hits(SessionDebit, p), Grouping.Keyed(PaidBy(), p as int, weight), worth(rows[p]));
    assert Sum(db.ledger, Hits(SessionDebit, p)) == Due(db.payments[p], SessionDebit);
    assert ByIndex(rows, Collected(worth))(p) == Collected(worth)(rows[p]);
  }

  lemma LedgerCollectsTheRows(db: Db, rows: seq<Analytics.PaymentRow>, weight: Entry -> int,
                              worth: Analytics.PaymentRow -> int)
    requires LedgerSound(db) && Shows(rows, db.payments) && Weighed(db.ledger, rows, weight, worth)
    ensures Sum(db.ledger, weight) == Sum(rows, Collected(worth))
  {
    var keys := UpTo(|rows|);
    Grouping.KeysPartitionRows(db.ledger, PaidBy(), weight, keys);
    forall i | 0 <= i < |db.ledger|
      ensures Grouping.Listed(PaidBy(), keys, weight)(db.ledger[i]) == weight(db.ledger[i])
    {
      assert keys[db.ledger[i].payment] == PaidBy()(db.ledger[i]);
    }
    SumCongruent(db.ledger, Grouping.Listed(PaidBy(), keys, weight), weight);
    forall i | 0 <= i < |keys|
      ensures Grouping.PerKey(db.ledger, PaidBy(), weight)(keys[i]) == ByIndex(rows, Collected(worth))(keys[i])
    {
      DebitsOfOne(db, rows, weight, worth, i);
    }
    SumCongruent(keys, Grouping.PerKey(db.ledger, PaidBy(), weight), ByIndex(rows, Collected(worth)));
    SumByIndex(rows, rows, Collected(worth));
  }

  lemma RowsEarn(rows: seq<Analytics.PaymentRow>, scope: Analytics.Scope, worth: Analytics.PaymentRow -> int)
    ensures Sum(Grouping.Select(rows, Analytics.Earned(scope)), worth) == Sum(rows, Collected(Worthy(scope, worth)))
  {
    Analytics.SumSelected(rows, Analytics.Earned(scope), worth, Collected(Worthy(scope, worth)));
  }

  lemma LedgerOfScope(db: Db, rows: seq<Analytics.PaymentRow>, scope: Analytics.Scope)
    requires LedgerSound(db) && Shows(rows, db.payments)
    ensures Sum(db.ledger, Debited(rows, scope))
            == Sum(Grouping.Select(rows, Analytics.Earned(scope)), Analytics.AmountOf())
    ensures Sum(db.ledger, DebitsWithin(rows, scope)) == |Grouping.Select(rows, Analytics.Earned(scope))|
  {
    forall i | 0 <= i < |db.ledger| ensures EntrySound(db, db.ledger[i]) {
    }
    LedgerCollectsTheRows(db, rows, Debited(rows, scope), Worthy(scope, Analytics.AmountOf()));
    RowsEarn(rows, scope, Analytics.AmountOf());
    LedgerCollectsTheRows(db, rows, DebitsWithin(rows, scope), Worthy(scope, Grouping.One()));
    RowsEarn(rows, scope, Grouping.One());
    Grouping.CountIsLength(Grouping.Select(rows, Analytics.Earned(scope)));
  }

  // In every interleaving, for every window and company, the revenue and the number of payments reported are
  // exactly what the ledger took for sessions paid there and then: no recharge is counted, no debit is missed
  // and none is counted twice.
  lemma RevenueIsTheLedger(actions: seq<Action>, snapshot: Analytics.Snapshot, scope: Analytics.Scope)
    requires Shows(snapshot.payments, Run(EMPTY, actions).db.payments)
    ensures var ledger := Run(EMPTY, actions).db.ledger;
            && Analytics.GetRevenueTotals(snapshot, scope).revenue == Sum(ledger, Debited(snapshot.payments, scope))
            && Analytics.GetRevenueTotals(snapshot, scope).payments
               == Sum(ledger, DebitsWithin(snapshot.payments, scope))
  {
    EveryRunSound(actions);
    Analytics.RevenueTotalsHoldEveryRow(snapshot, scope);
    LedgerOfScope(Run(EMPTY, actions).db, snapshot.payments, scope);
  }

  /* ------------------------------- the whole of it --------------------------- */

  function LeftOut(rows: seq<Analytics.PaymentRow>, scope: Analytics.Scope): Entry -> int {
    (e: Entry) =>
      if e.kind == SessionDebit && !(e.payment < |rows| && Within(rows[e.payment], scope)) then e.amount else 0
  }

  // A session debit always has an amount, so what is reported is the whole of what was taken exactly when the
  // scope holds the row of every debit.
  lemma RevenueIsTheWholeExactlyWhen(actions: seq<Action>, snapshot: Analytics.Snapshot, scope: Analytics.Scope)
    requires Shows(snapshot.payments, Run(EMPTY, actions).db.payments)
    ensures var ledger := Run(EMPTY, actions).db.ledger;
            Analytics.GetRevenueTotals(snapshot, scope).revenue == Sum(ledger, DebitedEver())
            <==> forall i :: 0 <= i < |ledger| && ledger[i].kind == SessionDebit ==>
                   ledger[i].payment < |snapshot.payments| && Within(snapshot.payments[ledger[i].payment], scope)
  {
    EveryRunSound(actions);
    RevenueIsTheLedger(actions, snapshot, scope);
    NothingLeftOutExactlyWhen(Run(EMPTY, actions).db, snapshot.payments, scope);
  }

  lemma NothingLeftOutExactlyWhen(db: Db, rows: seq<Analytics.PaymentRow>, scope: Analytics.Scope)
    requires DbSound(db)
    ensures Sum(db.ledger, Debited(rows, scope)) == Sum(db.ledger, DebitedEver())
            <==> forall i :: 0 <= i < |db.ledger| && db.ledger[i].kind == SessionDebit ==>
                   db.ledger[i].payment < |rows| && Within(rows[db.ledger[i].payment], scope)
  {
    var out := LeftOut(rows, scope);
    Grouping.SumBoth(db.ledger, Debited(rows, scope), out, DebitedEver());
    if i :| 0 <= i < |db.ledger| && out(db.ledger[i]) != 0 {
      SumAtLeast(db.ledger, out, i);
    } else {
      SumZero(db.ledger, out);
      forall i | 0 <= i < |db.ledger| && db.ledger[i].kind == SessionDebit ensures db.ledger[i].amount > 0 {
        assert EntrySound(db, db.ledger[i]);
        assert RowSound(db, db.payments[db.ledger[i].payment]);
      }
    }
  }

  /* ---------------------------------- dated ---------------------------------- */

  // What a step does to a row that was there: paid by an advance at that instant, or as dated as before.
  predicate DatedBy(row: Payment, row': Payment, a: Action) {
    && row'.purpose == row.purpose && row'.amount == row.amount
    && (row.status == Paid ==> row'.paidAt == row.paidAt && row'.status in {Paid, Refunded})
    && (row.status == Paid && row.purpose == SessionCollection ==> row'.status == Paid)
    && (row'.status == Paid && row.status != Paid ==> a.Advance? && row'.paidAt == Some(a.now))
  }

  lemma CallerDates(db: Db, c: Caller, now: int)
    ensures |db.payments| <= |StepCaller(db, c, now).0.payments|
    ensures forall p :: 0 <= p < |db.payments| ==>
              DatedBy(db.payments[p], StepCaller(db, c, now).0.payments[p], Advance(0, now))
    ensures forall p :: |db.payments| <= p < |StepCaller(db, c, now).0.payments| ==>
              StepCaller(db, c, now).0.payments[p].status == Pending
  {
  }

  lemma StepDates(sys: System, a: Action)
    ensures |sys.db.payments| <= |Next(sys, a).db.payments|
    ensures forall p :: 0 <= p < |sys.db.payments| ==> DatedBy(sys.db.payments[p], Next(sys, a).db.payments[p], a)
    ensures forall p :: |sys.db.payments| <= p < |Next(sys, a).db.payments| ==>
              Next(sys, a).db.payments[p].status == Pending
  {
    if a.Advance? && a.index < |sys.callers| {
      CallerDates(sys.db, sys.callers[a.index], a.now);
    }
  }

  predicate PaidRow(db: Db, p: Id) {
    p < |db.payments| && db.payments[p].status == Paid
  }

  // The k-th action is the step that paid this row.
  predicate PaidAt(actions: seq<Action>, k: nat, p: Id) {
    && k < |actions| && actions[k].Advance?
    && !PaidRow(Run(EMPTY, actions[..k]).db, p) && PaidRow(Run(EMPTY, actions[..k + 1]).db, p)
  }

  // In every interleaving each paid row was paid by a step, and says exactly when: the instant on that step's
  // clock.
  lemma {:induction false} PaidRowsAreDated(actions: seq<Action>, p: Id) returns (k: nat)
    requires PaidRow(Run(EMPTY, actions).db, p)
    ensures PaidAt(actions, k, p) && Run(EMPTY, actions).db.payments[p].paidAt == Some(actions[k].now)
  {
    var n := |actions| - 1;
    var before := Run(EMPTY, actions[..n]);
    assert actions[..n + 1] == actions;
    StepDates(before, actions[n]);
    if p < |before.db.payments| {
      assert DatedBy(before.db.payments[p], Run(EMPTY, actions).db.payments[p], actions[n]);
    }
    if PaidRow(before.db, p) {
      k := PaidRowsAreDated(actions[..n], p);
      assert actions[..n][..k] == actions[..k] && actions[..n][..k + 1] == actions[..k + 1];
    } else {
      k := n;
    }
  }

  predicate Dated(payments: seq<Payment>) {
    forall p :: 0 <= p < |payments| && payments[p].status == Paid ==> payments[p].paidAt.Some?
  }

  lemma {:induction false} SomeWindowCovers(payments: seq<Payment>) returns (range: Days.Range)
    requires Dated(payments)
    ensures forall p :: 0 <= p < |payments| && payments[p].status == Paid ==>
              Analytics.InWindow(payments[p].paidAt, range)
  {
    if payments == [] {
      range := Days.Range(0, 0);
    } else {
      var n := |payments| - 1;
      range := SomeWindowCovers(payments[..n]);
      assert forall p :: 0 <= p < n ==> payments[..n][p] == payments[p];
      if payments[n].status == Paid {
        var at := payments[n].paidAt.value;
        range := Days.Range(if at < range.from then at else range.from, if at > range.to then at else range.to);
      }
    }
  }

  // The row of a session debit is paid, and stays so.
  lemma DebitedRowIsPaid(db: Db, i: nat)
    requires DbSound(db) && i < |db.ledger| && db.ledger[i].kind == SessionDebit
    ensures db.ledger[i].payment < |db.payments| && db.payments[db.ledger[i].payment].status == Paid
  {
    var p := db.ledger[i].payment;
    assert EntrySound(db, db.ledger[i]) && RowSound(db, db.payments[p]);
    SumAtLeast(db.ledger, Hits(SessionDebit, p), i);
  }

  // In every interleaving some window reports to an unscoped caller all that was ever taken for a session.
  lemma SomeWindowTellsAll(actions: seq<Action>, snapshot: Analytics.Snapshot) returns (range: Days.Range)
    requires Shows(snapshot.payments, Run(EMPTY, actions).db.payments)
    ensures Analytics.GetRevenueTotals(snapshot, Analytics.Scope(None, range)).revenue
            == Sum(Run(EMPTY, actions).db.ledger, DebitedEver())
  {
    var db := Run(EMPTY, actions).db;
    forall p | 0 <= p < |db.payments| && db.payments[p].status == Paid ensures db.payments[p].paidAt.Some? {
      var k := PaidRowsAreDated(actions, p);
    }
    range := SomeWindowCovers(db.payments);
    EveryRunSound(actions);
    forall i | 0 <= i < |db.ledger| && db.ledger[i].kind == SessionDebit
      ensures db.ledger[i].payment < |snapshot.payments|
      ensures Within(snapshot.payments[db.ledger[i].payment], Analytics.Scope(None, range))
    {
      DebitedRowIsPaid(db, i);
    }
    RevenueIsTheWholeExactlyWhen(actions, snapshot, Analytics.Scope(None, range));
  }

  /* ------------------------- revenue by the steps that took it ---------------- */

  function PaidWithin(range: Days.Range): Payment -> int {
    (p: Payment) =>
      if p.purpose == SessionCollection && p.status == Paid && Analytics.InWindow(p.paidAt, range) then p.amount else 0
  }

  function PaidEver(): Payment -> int {
    (p: Payment) => if p.purpose == SessionCollection && p.status == Paid then p.amount else 0
  }

  // What the ledger has taken for sessions so far.
  function TakenBy(actions: seq<Action>): int {
    Sum(Run(EMPTY, actions).db.ledger, DebitedEver())
  }

  // What the steps whose clock lay in a window took.
  function TakenWithin(actions: seq<Action>, range: Days.Range): int {
    if actions == [] then 0
    else
      var n := |actions| - 1;
      TakenWithin(actions[..n], range)
      + if actions[n].Advance? && range.from <= actions[n].now <= range.to
        then TakenBy(actions) - TakenBy(actions[..n]) else 0
  }

  lemma {:induction false} GrowsBy(s: seq<Payment>, s': seq<Payment>, f: Payment -> int, g: Payment -> int,
      counts: bool)
    requires |s| <= |s'|
    requires forall i :: 0 <= i < |s| ==> f(s'[i]) - f(s[i]) == if counts then g(s'[i]) - g(s[i]) else 0
    requires forall i :: |s| <= i < |s'| ==> f(s'[i]) == 0 && g(s'[i]) == 0
    ensures Sum(s', f) - Sum(s, f) == if counts then Sum(s', g) - Sum(s, g) else 0
    decreases |s'|
  {
    if s' != [] {
      var t' := s'[..|s'| - 1];
      assert forall i :: 0 <= i < |t'| ==> t'[i] == s'[i];
      if |s| == |s'| {
        var t := s[..|s| - 1];
        assert forall i :: 0 <= i < |t| ==> t[i] == s[i];
        GrowsBy(t, t', f, g, counts);
      } else {
        GrowsBy(s, t', f, g, counts);
      }
    }
  }

  lemma StepTakes(sys: System, a: Action, range: Days.Range)
    ensures var rows, rows' := sys.db.payments, Next(sys, a).db.payments;
            Sum(rows', PaidWithin(range)) - Sum(rows, PaidWithin(range))
            == if a.Advance? && range.from <= a.now <= range.to
               then Sum(rows', PaidEver()) - Sum(rows, PaidEver()) else 0
  {
    var rows, rows' := sys.db.payments, Next(sys, a).db.payments;
    var counts := a.Advance? && range.from <= a.now <= range.to;
    StepDates(sys, a);
    forall i | 0 <= i < |rows|
      ensures PaidWithin(range)(rows'[i]) - PaidWithin(range)(rows[i])
              == if counts then PaidEver()(rows'[i]) - PaidEver()(rows[i]) else 0
    {
      assert DatedBy(rows[i], rows'[i], a);
    }
    GrowsBy(rows, rows', PaidWithin(range), PaidEver(), counts);
  }

  function Sold(payments: seq<Payment>): (rows: seq<Analytics.PaymentRow>)
    ensures Shows(rows, payments)
  {
    seq(|payments|, i requires 0 <= i < |payments| => RowOf(payments[i], None))
  }

  lemma TakenIsPaid(db: Db)
    requires LedgerSound(db)
    ensures Sum(db.ledger, DebitedEver()) == Sum(db.payments, PaidEver())
  {
    var rows := Sold(db.payments);
    forall i | 0 <= i < |db.ledger| ensures EntrySound(db, db.ledger[i]) {
    }
    LedgerCollectsTheRows(db, rows, DebitedEver(), Analytics.AmountOf());
    RowsAsPayments(rows, db.payments, Collected(Analytics.AmountOf()), PaidEver());
  }

  lemma {:induction false} RowsAsPayments(rows: seq<Analytics.PaymentRow>, payments: seq<Payment>,
                                          f: Analytics.PaymentRow -> int, g: Payment -> int)
    requires |rows| == |payments| && forall i :: 0 <= i < |rows| ==> f(rows[i]) == g(payments[i])
    ensures Sum(rows, f) == Sum(payments, g)
  {
    if rows != [] {
      var n := |rows| - 1;
      assert forall i :: 0 <= i < n ==> rows[..n][i] == rows[i] && payments[..n][i] == payments[i];
      RowsAsPayments(rows[..n], payments[..n], f, g);
    }
  }

  lemma {:induction false} PaidIsTakenWithin(actions: seq<Action>, range: Days.Range)
    ensures Sum(Run(EMPTY, actions).db.payments, PaidWithin(range)) == TakenWithin(actions, range)
  {
    if actions != [] {
      var n := |actions| - 1;
      PaidIsTakenWithin(actions[..n], range);
      StepTakes(Run(EMPTY, actions[..n]), actions[n], range);
      EveryRunSound(actions);
      EveryRunSound(actions[..n]);
      TakenIsPaid(Run(EMPTY, actions).db);
      TakenIsPaid(Run(EMPTY, actions[..n]).db);
    }
  }

  // So in every interleaving the revenue of a window is what was debited for sessions by the steps whose
  // clock lay in it.
  lemma RevenueIsTakenWithin(actions: seq<Action>, snapshot: Analytics.Snapshot, range: Days.Range)
    requires Shows(snapshot.payments, Run(EMPTY, actions).db.payments)
    ensures Analytics.GetRevenueTotals(snapshot, Analytics.Scope(None, range)).revenue == TakenWithin(actions, range)
  {
    var db, scope := Run(EMPTY, actions).db, Analytics.Scope(None, range);
    PaidIsTakenWithin(actions, range);
    Analytics.RevenueTotalsHoldEveryRow(snapshot, scope);
    RowsEarn(snapshot.payments, scope, Analytics.AmountOf());
    RowsAsPayments(snapshot.payments, db.payments, Collected(Worthy(scope, Analytics.AmountOf())), PaidWithin(range));
  }
}
