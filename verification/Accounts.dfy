// A driver's wallet against what was put in and what the charging cost.

module Accounts {
  import opened Sums
  import opened Settlement
  import opened Books
  import Grouping

  // A recharge that stands.
  function ToppedUp(user: Id): Payment -> int {
    (p: Payment) => if p.user == user && p.status == Paid && p.purpose == WalletRecharge then p.amount as int else 0
  }

  // A collected payment for a session.
  function Taken(user: Id): Payment -> int {
    (p: Payment) => if p.user == user && p.status == Paid && p.purpose == SessionCollection then p.amount as int else 0
  }

  // A charge that is settled, at its price.
  function Charged(user: Id): Charge -> int {
    (c: Charge) => if c.user == user && c.paid && c.amount.Some? then c.amount.value as int else 0
  }

  function ForSession(): Payment -> int {
    (p: Payment) => if p.session.Some? then p.session.value else -1
  }

  // The rows taken for one charge add up to its price if it is settled, and to nothing if not.
  lemma TakenForOne(db: Db, s: Id, user: Id)
    requires RowsSound(db) && Indexed(db.payments) && s < |db.charges| && ChargeSound(db, s)
    ensures Sum(db.payments, Grouping.Keyed(ForSession(), s as int, Taken(user)))
            == ByIndex(db.charges, Charged(user))(s)
  {
    var weight := Grouping.Keyed(ForSession(), s as int, Taken(user));
    var row := FindLive(db.payments, s);
    forall i | 0 <= i < |db.payments| && (row.None? || i != row.value) ensures weight(db.payments[i]) == 0 {
      assert RowSound(db, db.payments[i]);
    }
    if row.None? {
      SumZero(db.payments, weight);
      assert !PaidFor(db.payments, s);
      assert Charged(user)(db.charges[s]) == 0;
    } else {
      assert RowSound(db, db.payments[row.value]);
      SumSingle(db.payments, weight, row.value);
      assert weight(db.payments[row.value]) == Taken(user)(db.payments[row.value]);
      assert Taken(user)(db.payments[row.value]) == Charged(user)(db.charges[s]);
    }
  }

  lemma TakenIsCharged(db: Db, user: Id)
    requires RowsSound(db) && Indexed(db.payments) && ChargesSound(db)
    ensures Sum(db.payments, Taken(user)) == Sum(db.charges, Charged(user))
  {
    var keys := UpTo(|db.charges|);
    Grouping.KeysPartitionRows(db.payments, ForSession(), Taken(user), keys);
    forall i | 0 <= i < |db.payments|
      ensures Grouping.Listed(ForSession(), keys, Taken(user))(db.payments[i]) == Taken(user)(db.payments[i])
    {
      assert RowSound(db, db.payments[i]);
      if db.payments[i].session.Some? {
        assert keys[db.payments[i].session.value] == ForSession()(db.payments[i]);
      }
    }
    SumCongruent(db.payments, Grouping.Listed(ForSession(), keys, Taken(user)), Taken(user));
    forall i | 0 <= i < |keys|
      ensures Grouping.PerKey(db.payments, ForSession(), Taken(user))(keys[i])
              == ByIndex(db.charges, Charged(user))(keys[i])
    {
      assert ChargeSound(db, i);
      TakenForOne(db, i, user);
    }
    SumCongruent(keys, Grouping.PerKey(db.payments, ForSession(), Taken(user)), ByIndex(db.charges, Charged(user)));
    SumByIndex(db.charges, db.charges, Charged(user));
  }

  // In every interleaving a driver's balance is what was topped up and not reversed, less the price of
  // every settled charge: no paise is lost on the way, and none is taken twice.
  lemma BalanceIsTopUpsLessCharges(actions: seq<Action>, user: Id)
    ensures var db := Run(EMPTY, actions).db;
            Balance(db, user) == Sum(db.payments, ToppedUp(user)) - Sum(db.charges, Charged(user))
  {
    EveryRunSound(actions);
    var db := Run(EMPTY, actions).db;
    WorthSplits(db.payments, user);
    TakenIsCharged(db, user);
    assert Balance(db, user) == Sum(db.payments, Worth(user));
  }

  lemma {:induction false} WorthSplits(payments: seq<Payment>, user: Id)
    ensures Sum(payments, Worth(user)) == Sum(payments, ToppedUp(user)) - Sum(payments, Taken(user))
  {
    if payments != [] {
      WorthSplits(payments[..|payments| - 1], user);
    }
  }
}
