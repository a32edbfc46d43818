// Where the top-up loop stops short: what a wallet too short for one charge leaves unpaid, exactly when
// it could have paid more, and a run in which it could.

module Shortfalls {
  import opened Options
  import opened Settlement
  import opened Books
  import opened Settling
  import opened TopUp

  // Nothing this driver still owes could be paid from what is left.
  ghost predicate NothingAffordable(db: Db, user: Id) {
    forall s: Id :: Collectable(db, s) && db.charges[s].user == user ==> !Affordable(db, user, AmountDue(db, s))
  }

  // How many charges from the front fit into an amount.
  function Fitting(db: Db, ids: seq<Id>, left: int): (n: nat)
    ensures n <= |ids| && (left >= 0 ==> Debt(db, ids[..n]) <= left)
    ensures n < |ids| ==> Debt(db, ids[..n + 1]) > left
  {
    if ids == [] || AmountDue(db, ids[0]) > left then
      (assert Debt(db, ids[..0]) == 0; assert ids != [] ==> ids[..1][1..] == []; 0)
    else
      var n := Fitting(db, ids[1..], left - AmountDue(db, ids[0]));
      assert ids[..n + 1][1..] == ids[1..][..n];
      assert n + 1 < |ids| ==> ids[..n + 2][1..] == ids[1..][..n + 1];
      n + 1
  }

  // The comment beside the loop says that a wallet short for one charge is short for the next. Stopping
  // there is right exactly when every charge from the first one that does not fit is dearer than what the
  // charges before it leave; all of it known before the run.
  lemma StopsRightlyExactlyWhen(db: Db, user: Id, ids: seq<Id>, times: seq<int>)
    requires DbSound(db) && UnpaidOf(db, user, ids) && |times| == |ids| && ActiveWallet(db, user)
    ensures var m := Fitting(db, ids, Balance(db, user));
            var (db1, n) := SettleOutstanding(db, ids, times);
            && n == m
            && (NothingAffordable(db1, user)
                <==> forall k :: m <= k < |ids| ==> AmountDue(db, ids[k]) > Balance(db, user) - Debt(db, ids[..m]))
  {
    PaysLongestPrefix(db, user, ids, times);
    var (db1, n) := SettleOutstanding(db, ids, times);
    PaidIsFitting(db, db1, user, ids, n);
    StopsRightly(db, db1, user, ids, n);
  }

  // The prefix that fits and is not outgrown by the next is the one that was paid.
  lemma LongestIs(db: Db, db': Db, user: Id, ids: seq<Id>, n: nat, k: nat)
    requires PaidPrefix(db, db', user, ids, n) && k <= |ids|
    requires Debt(db, ids[..k]) <= Balance(db, user) && (k < |ids| ==> Balance(db, user) < Debt(db, ids[..k + 1]))
    ensures n == k
  {
    if n < k {
      LongerPrefixOwesMore(db, ids, n + 1, k);
    } else if n > k {
      LongerPrefixOwesMore(db, ids, k + 1, n);
    }
  }

  lemma PaidIsFitting(db: Db, db1: Db, user: Id, ids: seq<Id>, n: nat)
    requires PaidPrefix(db, db1, user, ids, n) && Balance(db, user) >= 0
    ensures n == Fitting(db, ids, Balance(db, user))
  {
    LongestIs(db, db1, user, ids, n, Fitting(db, ids, Balance(db, user)));
  }

  lemma StopsRightly(db: Db, db1: Db, user: Id, ids: seq<Id>, n: nat)
    requires UnpaidOf(db, user, ids) && PaidPrefix(db, db1, user, ids, n)
    ensures NothingAffordable(db1, user)
            <==> forall k :: n <= k < |ids| ==> AmountDue(db, ids[k]) > Balance(db, user) - Debt(db, ids[..n])
  {
    LeftOver(db, db1, user, ids, n);
    NothingLeft(db, db1, user, ids, n, Balance(db, user) - Debt(db, ids[..n]));
  }

  lemma NothingLeft(db: Db, db1: Db, user: Id, ids: seq<Id>, n: nat, left: int)
    requires n <= |ids| && |db1.charges| == |db.charges| && ActiveWallet(db1, user) && Balance(db1, user) == left
    requires forall j :: n <= j < |ids| ==>
               Collectable(db1, ids[j]) && db1.charges[ids[j]] == db.charges[ids[j]] && db1.charges[ids[j]].user == user
    requires forall s: Id :: Collectable(db1, s) && db1.charges[s].user == user ==>
               exists j :: n <= j < |ids| && ids[j] == s
    ensures NothingAffordable(db1, user) <==> forall k :: n <= k < |ids| ==> AmountDue(db, ids[k]) > left
  {
    forall k | n <= k < |ids| ensures AmountDue(db1, ids[k]) == AmountDue(db, ids[k]) {
      assert Collectable(db1, ids[k]);
    }
    if NothingAffordable(db1, user) {
      forall k | n <= k < |ids| ensures AmountDue(db, ids[k]) > left {
        assert Collectable(db1, ids[k]) && !Affordable(db1, user, AmountDue(db1, ids[k]));
      }
    }
  }

  // The shortest case of it: a wallet short for the older charge covers the later one, and leaves it unpaid.
  lemma DearChargeHidesCheapOne(db: Db, user: Id, dear: Id, cheap: Id, times: seq<int>)
    requires DbSound(db) && UnpaidOf(db, user, [dear, cheap]) && |times| == 2 && ActiveWallet(db, user)
    requires AmountDue(db, cheap) <= Balance(db, user) < AmountDue(db, dear)
    ensures var (db1, n) := SettleOutstanding(db, [dear, cheap], times);
            n == 0 && Collectable(db1, cheap) && Affordable(db1, user, AmountDue(db1, cheap))
  {
    var ids := [dear, cheap];
    assert Collectable(db, ids[0]) && Collectable(db, ids[1]);
    PaysLongestPrefix(db, user, ids, times);
    var (db1, n) := SettleOutstanding(db, ids, times);
    NothingPaid(db, db1, user, ids, n);
  }

  /* ---------------------------- a run that gets there ------------------------ */

  // One driver recharges 1000 paise and owes two charges that ended at the same instant, of 2000 and 500.
  const ORDER: seq<Action> := [Order(0, 1_000), OrderAnswered(0, Some("order"))]

  const CONFIRMATION: seq<Action> := [Call(VerifyRead("order", "payment", true, None)), Advance(0, 0), Advance(0, 0)]

  const CHARGING: seq<Action> := [OpenCharge(0), OpenCharge(0), Price(0, 2_000, 5), Price(1, 500, 5)]

  const ORDERED :=
    System(Db(map[0 := Wallet(0, Active)], [],
              [Payment(0, WalletRecharge, None, 1_000, Pending, Some("order"), None, 0, None, None)], []), [])

  const RECHARGED :=
    System(Db(map[0 := Wallet(1_000, Active)], [Entry(0, Recharge, Credit, 1_000, 0, 1_000, 0, None)],
              [Payment(0, WalletRecharge, None, 1_000, Paid, Some("order"), Some("payment"), 0, None, Some(0))], []),
           [VerifyDone(Credited)])

  const TWO_OWED := [Charge(0, Some(2_000), Some(5), false), Charge(0, Some(500), Some(5), false)]

  lemma OrderIsPlaced()
    ensures Run(EMPTY, ORDER) == ORDERED
  {
    var placed := Next(EMPTY, ORDER[0]);
    RunTwo(EMPTY, ORDER[0], ORDER[1]);
    assert ORDER == [ORDER[0], ORDER[1]];
    assert placed.db.wallets == map[0 := Wallet(0, Active)];
    assert placed.db.payments == [ORDERED.db.payments[0].(orderId := None)];
    assert Next(placed, ORDER[1]).db.payments == ORDERED.db.payments;
  }

  lemma RechargeArrives()
    ensures Run(ORDERED, CONFIRMATION) == RECHARGED
  {
    var c := CONFIRMATION;
    var called, claiming := Next(ORDERED, c[0]), Next(Next(ORDERED, c[0]), c[1]);
    RunTwo(ORDERED, c[0], c[1]);
    RunOne(ORDERED, [c[0], c[1]], c[2]);
    assert c == [c[0], c[1]] + [c[2]];
    assert called == ORDERED.(callers := [VerifyRead("order", "payment", true, None)]);
    assert claiming == ORDERED.(callers := [VerifyClaim(0, 0, 1_000, "payment")]);
    CreditArrives();
  }

  lemma CreditArrives()
    ensures Next(ORDERED.(callers := [VerifyClaim(0, 0, 1_000, "payment")]), Advance(0, 0)) == RECHARGED
  {
    var claimed := Next(ORDERED.(callers := [VerifyClaim(0, 0, 1_000, "payment")]), Advance(0, 0));
    assert claimed.db.wallets == RECHARGED.db.wallets;
    assert claimed.db.ledger == RECHARGED.db.ledger && claimed.db.payments == RECHARGED.db.payments;
    assert claimed.callers == RECHARGED.callers;
  }

  lemma ChargesAreOwed()
    ensures Run(RECHARGED, CHARGING) == RECHARGED.(db := RECHARGED.db.(charges := TWO_OWED))
  {
    var c := CHARGING;
    var open := Charge(0, None, None, false);
    var unpriced := RECHARGED.(db := RECHARGED.db.(charges := [open, open]));
    RunTwo(RECHARGED, c[0], c[1]);
    assert Next(RECHARGED, c[0]).db.charges == [open];
    assert Next(Next(RECHARGED, c[0]), c[1]) == unpriced;
    RunTwo(unpriced, c[2], c[3]);
    assert Next(unpriced, c[2]).db.charges == [TWO_OWED[0], open];
    assert Next(Next(unpriced, c[2]), c[3]).db.charges == TWO_OWED;
    RunThen(RECHARGED, [c[0], c[1]], [c[2], c[3]]);
    assert c == [c[0], c[1]] + [c[2], c[3]];
  }

  lemma TwoChargesOwed()
    ensures Run(EMPTY, ORDER + CONFIRMATION + CHARGING) == RECHARGED.(db := RECHARGED.db.(charges := TWO_OWED))
  {
    OrderIsPlaced();
    RechargeArrives();
    ChargesAreOwed();
    RunThen(EMPTY, ORDER, CONFIRMATION);
    RunThen(EMPTY, ORDER + CONFIRMATION, CHARGING);
  }

  predicate TwoOwed(db: Db) {
    db.charges == TWO_OWED && ActiveWallet(db, 0) && Balance(db, 0) == 1_000
  }

  lemma NothingFits(db: Db, db1: Db, n: nat)
    requires TwoOwed(db) && PaidPrefix(db, db1, 0, [0, 1], n)
    ensures n == 0 && TwoOwed(db1) && !NothingAffordable(db1, 0)
  {
    Debts(db);
    LongestIs(db, db1, 0, [0, 1], n, 0);
    NothingPaid(db, db1, 0, [0, 1], n);
    assert Collectable(db1, 1) && Affordable(db1, 0, AmountDue(db1, 1));
  }

  // Oldest first, the dear one is not covered, and the loop stops before the cheap one, which is.
  lemma DearHidesCheap(db: Db)
    requires DbSound(db) && TwoOwed(db)
    ensures var (db1, n) := SettleOutstanding(db, [0, 1], [6, 6]);
            n == 0 && DbSound(db1) && TwoOwed(db1) && !NothingAffordable(db1, 0)
  {
    EitherOrder(db);
    PaysLongestPrefix(db, 0, [0, 1], [6, 6]);
    var (db1, n) := SettleOutstanding(db, [0, 1], [6, 6]);
    NothingFits(db, db1, n);
  }

  lemma CheapFirstIsPaid(db: Db)
    requires DbSound(db) && TwoOwed(db)
    ensures var (db1, n) := SettleOutstanding(db, [1, 0], [7, 7]); n == 1 && Balance(db1, 0) == 500
  {
    EitherOrder(db);
    Debts(db);
    PaysLongestPrefix(db, 0, [1, 0], [7, 7]);
    var (db1, n) := SettleOutstanding(db, [1, 0], [7, 7]);
    LongestIs(db, db1, 0, [1, 0], n, 1);
  }

  // In that run the dear charge hides the cheap one, which the wallet covers and leaves unpaid; and a second
  // run straight after, with the tie listed the other way, collects it.
  lemma SecondRunCanMoveMoney()
    ensures var db := Run(EMPTY, ORDER + CONFIRMATION + CHARGING).db;
            var (db1, n) := SettleOutstanding(db, [0, 1], [6, 6]);
            var (db2, m) := SettleOutstanding(db1, [1, 0], [7, 7]);
            && UnpaidOf(db, 0, [0, 1]) && n == 0 && !NothingAffordable(db1, 0)
            && UnpaidOf(db1, 0, [1, 0]) && m == 1 && Balance(db1, 0) == 1_000 && Balance(db2, 0) == 500
  {
    EveryRunSound(ORDER + CONFIRMATION + CHARGING);
    TwoChargesOwed();
    var db := Run(EMPTY, ORDER + CONFIRMATION + CHARGING).db;
    assert TwoOwed(db);
    EitherOrder(db);
    DearHidesCheap(db);
    var db1 := SettleOutstanding(db, [0, 1], [6, 6]).0;
    EitherOrder(db1);
    CheapFirstIsPaid(db1);
  }

  lemma EitherOrder(db: Db)
    requires db.charges == TWO_OWED
    ensures UnpaidOf(db, 0, [0, 1]) && UnpaidOf(db, 0, [1, 0])
  {
    assert 0 in [1, 0] && 1 in [1, 0] && 0 in [0, 1] && 1 in [0, 1];
  }

  lemma Debts(db: Db)
    requires db.charges == TWO_OWED
    ensures Debt(db, [0, 1][..0]) == 0 && Debt(db, [0, 1][..1]) == 2_000
    ensures Debt(db, [1, 0][..1]) == 500 && Debt(db, [1, 0][..2]) == 2_500
  {
    assert [0, 1][..1] == [0] && [1, 0][..1] == [1] && [1, 0][..2] == [1, 0];
    assert [1, 0][1..] == [0] && [0][1..] == [] && [1][1..] == [];
  }
}
