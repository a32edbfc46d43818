// The guarantees a reader wants, for every run and every row, read off the invariant.

module Guarantees {
  import opened Options
  import opened Sums
  import opened Settlement
  import opened Books

  function PaidRowOf(session: Id): Payment -> int {
    (p: Payment) => if p.purpose == SessionCollection && p.session == Some(session) && p.status == Paid then 1 else 0
  }

  function DebitOf(session: Id): Entry -> int {
    (e: Entry) => if e.direction == Debit && e.session == Some(session) then 1 else 0
  }

  function CreditOf(payment: Id): Entry -> int {
    (e: Entry) => if e.direction == Credit && e.payment == payment then 1 else 0
  }

  function ReversalOf(payment: Id): Entry -> int {
    (e: Entry) => if e.kind == Refund && e.payment == payment then 1 else 0
  }

  // A credit that some row with this provider payment id accounts for.
  function CreditFor(payments: seq<Payment>, reference: string): Entry -> int {
    (e: Entry) =>
      if e.direction == Credit && e.payment < |payments| && payments[e.payment].providerPaymentId == Some(reference)
      then 1 else 0
  }

  lemma RowsOfCharge(db: Db, s: Id)
    requires DbSound(db)
    ensures var row := FindLive(db.payments, s);
            && Sum(db.payments, PaidRowOf(s)) == (if PaidFor(db.payments, s) then 1 else 0)
            && Sum(db.ledger, DebitOf(s)) == (if PaidFor(db.payments, s) then 1 else 0)
  {
    var row := FindLive(db.payments, s);
    if row.None? {
      forall i | 0 <= i < |db.payments| ensures PaidRowOf(s)(db.payments[i]) == 0 {
        assert RowSound(db, db.payments[i]);
      }
      SumZero(db.payments, PaidRowOf(s));
      forall i | 0 <= i < |db.ledger| ensures DebitOf(s)(db.ledger[i]) == 0 {
        assert EntrySound(db, db.ledger[i]);
        assert RowSound(db, db.payments[db.ledger[i].payment]);
      }
      SumZero(db.ledger, DebitOf(s));
    } else {
      var p := row.value;
      assert RowSound(db, db.payments[p]);
      SumSingle(db.payments, PaidRowOf(s), p);
      forall i | 0 <= i < |db.ledger| ensures DebitOf(s)(db.ledger[i]) == Hits(SessionDebit, p)(db.ledger[i]) {
        assert EntrySound(db, db.ledger[i]);
        assert RowSound(db, db.payments[db.ledger[i].payment]);
      }
      SumCongruent(db.ledger, DebitOf(s), Hits(SessionDebit, p));
      assert Sum(db.ledger, Hits(SessionDebit, p)) == Due(db.payments[p], SessionDebit);
    }
  }

  // A charge is paid exactly when it cost nothing or was debited once; otherwise it was never debited.
  lemma ExactlyOnce(actions: seq<Action>, s: Id)
    requires s < |Run(EMPTY, actions).db.charges|
    ensures var db := Run(EMPTY, actions).db; var charge := db.charges[s];
            var rows, debits := Sum(db.payments, PaidRowOf(s)), Sum(db.ledger, DebitOf(s));
            && (charge.paid <==> charge.amount == Some(0) || (charge.amount.Some? && rows == 1 && debits == 1))
            && (!charge.paid || charge.amount == Some(0) ==> rows == 0 && debits == 0)
            && (forall i :: 0 <= i < |db.payments| && db.payments[i].session == Some(s) ==>
                  Some(db.payments[i].amount) == charge.amount && db.payments[i].user == charge.user)
            && (forall i :: 0 <= i < |db.ledger| && db.ledger[i].session == Some(s) ==>
                  Some(db.ledger[i].amount) == charge.amount && db.ledger[i].user == charge.user
                  && db.ledger[i].direction == Debit)
  {
    EveryRunSound(actions);
    var db := Run(EMPTY, actions).db;
    RowsOfCharge(db, s);
    assert ChargeSound(db, s);
    var row := FindLive(db.payments, s);
    if row.Some? {
      assert RowSound(db, db.payments[row.value]);
    }
    forall i | 0 <= i < |db.payments| && db.payments[i].session == Some(s)
      ensures Some(db.payments[i].amount) == db.charges[s].amount && db.payments[i].user == db.charges[s].user
    {
      assert RowSound(db, db.payments[i]);
    }
    forall i | 0 <= i < |db.ledger| && db.ledger[i].session == Some(s)
      ensures Some(db.ledger[i].amount) == db.charges[s].amount && db.ledger[i].user == db.charges[s].user
              && db.ledger[i].direction == Debit
    {
      assert EntrySound(db, db.ledger[i]);
      assert RowSound(db, db.payments[db.ledger[i].payment]);
    }
  }

  // No row of the user's lies strictly between two positions.
  ghost predicate Adjacent(ledger: seq<Entry>, i: int, j: int)
    requires -1 <= i < j < |ledger|
  {
    forall k :: i < k < j ==> ledger[k].user != ledger[j].user
  }

  lemma {:induction false} LastAfterIsPrevious(ledger: seq<Entry>, user: Id, i: int)
    requires -1 <= i < |ledger| && (i >= 0 ==> ledger[i].user == user)
    requires forall k :: i < k < |ledger| ==> ledger[k].user != user
    ensures LastAfter(ledger, user) == if i >= 0 then ledger[i].after else 0
  {
    if ledger != [] && ledger[|ledger| - 1].user != user {
      LastAfterIsPrevious(ledger[..|ledger| - 1], user, i);
    }
  }

  // Every balance is non-negative, is what reconcile computes from the ledger, and is what the
  // paid rows say; and each ledger row starts from where the user's previous one ended.
  lemma Conservation(actions: seq<Action>, user: Id)
    ensures var db := Run(EMPTY, actions).db;
            && Balance(db, user) >= 0
            && Balance(db, user) == Sum(db.ledger, Signed(user))
            && Balance(db, user) == Sum(db.payments, Worth(user))
            && (forall i, j ::
                  0 <= i < j < |db.ledger| && db.ledger[i].user == db.ledger[j].user && Adjacent(db.ledger, i, j) ==>
                  db.ledger[j].before == db.ledger[i].after)
            && (forall j :: 0 <= j < |db.ledger| && Adjacent(db.ledger, -1, j) ==> db.ledger[j].before == 0)
            && (forall j :: 0 <= j < |db.ledger| ==>
                  db.ledger[j].before >= 0 && db.ledger[j].after >= 0
                  && db.ledger[j].after - db.ledger[j].before == Signed(db.ledger[j].user)(db.ledger[j]))
  {
    EveryRunSound(actions);
    var db := Run(EMPTY, actions).db;
    assert Balance(db, user) >= 0;
    assert Balance(db, user) == Sum(db.payments, Worth(user));
    LedgerReconciles(db, user);
    forall i, j | -1 <= i < j < |db.ledger| && (i >= 0 ==> db.ledger[i].user == db.ledger[j].user)
      && Adjacent(db.ledger, i, j)
      ensures db.ledger[j].before == if i >= 0 then db.ledger[i].after else 0
    {
      LastAfterIsPrevious(db.ledger[..j], db.ledger[j].user, i);
    }
  }

  // A recharge row is credited once, in its own amount, exactly when it is paid or was reversed
  // since; it is reversed once, exactly when it is refunded.
  lemma RechargeExactlyOnce(actions: seq<Action>, p: Id)
    requires p < |Run(EMPTY, actions).db.payments| && Run(EMPTY, actions).db.payments[p].purpose == WalletRecharge
    ensures var db := Run(EMPTY, actions).db; var row := db.payments[p];
            && Sum(db.ledger, CreditOf(p)) == (if row.status == Paid || row.status == Refunded then 1 else 0)
            && Sum(db.ledger, ReversalOf(p)) == (if row.status == Refunded then 1 else 0)
            && (forall i :: 0 <= i < |db.ledger| && db.ledger[i].payment == p ==>
                  db.ledger[i].amount == row.amount && db.ledger[i].user == row.user && db.ledger[i].session.None?)
  {
    EveryRunSound(actions);
    var db := Run(EMPTY, actions).db;
    assert RowSound(db, db.payments[p]);
    forall i | 0 <= i < |db.ledger|
      ensures CreditOf(p)(db.ledger[i]) == Hits(Recharge, p)(db.ledger[i])
      ensures ReversalOf(p)(db.ledger[i]) == Hits(Refund, p)(db.ledger[i])
      ensures db.ledger[i].payment == p ==>
                db.ledger[i].amount == db.payments[p].amount && db.ledger[i].user == db.payments[p].user
                && db.ledger[i].session.None?
    {
      assert EntrySound(db, db.ledger[i]);
    }
    SumCongruent(db.ledger, CreditOf(p), Hits(Recharge, p));
    SumCongruent(db.ledger, ReversalOf(p), Hits(Refund, p));
    assert Sum(db.ledger, Hits(Recharge, p)) == Due(db.payments[p], Recharge);
    assert Sum(db.ledger, Hits(Refund, p)) == Due(db.payments[p], Refund);
  }

  // One provider payment never credits two rows, nor one row twice.
  lemma OneCreditPerProviderPayment(actions: seq<Action>, reference: string)
    ensures var db := Run(EMPTY, actions).db;
            Sum(db.ledger, CreditFor(db.payments, reference))
            == if FindProviderPayment(db.payments, reference).Some? then 1 else 0
  {
    EveryRunSound(actions);
    var db := Run(EMPTY, actions).db;
    var owner := FindProviderPayment(db.payments, reference);
    if owner.None? {
      SumZero(db.ledger, CreditFor(db.payments, reference));
    } else {
      var p := owner.value;
      assert RowSound(db, db.payments[p]);
      forall i | 0 <= i < |db.ledger|
        ensures CreditFor(db.payments, reference)(db.ledger[i]) == Hits(Recharge, p)(db.ledger[i])
      {
        assert EntrySound(db, db.ledger[i]);
      }
      SumCongruent(db.ledger, CreditFor(db.payments, reference), Hits(Recharge, p));
      assert Sum(db.ledger, Hits(Recharge, p)) == Due(db.payments[p], Recharge);
    }
  }

  // No later action unpays a charge, rewrites a price, or takes back a ledger row.
  lemma {:induction false} NothingIsTakenBack(actions: seq<Action>, more: seq<Action>)
    ensures Grows(Run(EMPTY, actions).db, Run(EMPTY, actions + more).db)
  {
    if more == [] {
      assert actions + more == actions;
    } else {
      var n := |more| - 1;
      NothingIsTakenBack(actions, more[..n]);
      EveryRunSound(actions + more[..n]);
      assert (actions + more)[..|actions + more| - 1] == actions + more[..n];
      NextSound(Run(EMPTY, actions + more[..n]), more[n]);
    }
  }

  lemma OnlyOrdersAndCollectionsAddRows(sys: System, action: Action, p: Id)
    requires |sys.db.payments| <= p < |Next(sys, action).db.payments|
    ensures var row := Next(sys, action).db.payments[p];
            row.purpose == WalletRecharge ==> MIN_RECHARGE_PAISE <= row.amount <= MAX_RECHARGE_PAISE
  {
  }

  // No recharge is ever taken outside the published limits.
  lemma {:induction false} RechargesWithinLimits(actions: seq<Action>, p: Id)
    requires p < |Run(EMPTY, actions).db.payments| && Run(EMPTY, actions).db.payments[p].purpose == WalletRecharge
    ensures MIN_RECHARGE_PAISE <= Run(EMPTY, actions).db.payments[p].amount <= MAX_RECHARGE_PAISE
  {
    var n := |actions| - 1;
    var before := Run(EMPTY, actions[..n]);
    EveryRunSound(actions[..n]);
    NextSound(before, actions[n]);
    if p < |before.db.payments| {
      RechargesWithinLimits(actions[..n], p);
    } else {
      OnlyOrdersAndCollectionsAddRows(before, actions[n], p);
    }
  }

  // A blocked wallet stands still, whoever calls, until an administrator changes its status.
  lemma BlockedWalletStands(sys: System, action: Action, user: Id)
    requires user in sys.db.wallets && sys.db.wallets[user].status == Blocked && !action.Freeze?
    ensures user in Next(sys, action).db.wallets && Next(sys, action).db.wallets[user] == sys.db.wallets[user]
  {
  }
}
