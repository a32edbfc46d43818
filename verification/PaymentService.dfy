// The services themselves, updating the database in place, each against the step functions that
// the interleaving model is made of.

module PaymentService {
  import opened Options
  import opened Sums
  import opened Backoff
  import opened Settlement
  import Books
  import Settling
  import TopUp
  import Sweeper

  class Database {
    var wallets: map<Id, Wallet>
    var ledger: seq<Entry>
    var payments: seq<Payment>
    var charges: seq<Charge>

    function Snapshot(): Db
      reads this
    {
      Db(wallets, ledger, payments, charges)
    }

    constructor ()
      ensures Snapshot() == EMPTY.db
    {
      wallets, ledger, payments, charges := map[], [], [], [];
    }

    method GetOrCreateWallet(user: Id)
      modifies this`wallets
      ensures wallets == OpenWallet(old(wallets), user) && user in wallets
    {
      if user !in wallets {
        wallets := wallets[user := Wallet(0, Active)];
      }
    }

    // The balance check lives in the filter of the update.
    method DebitWallet(user: Id, amount: nat) returns (updated: bool)
      modifies this`wallets
      ensures updated <==> AtomicDebit(old(wallets), user, amount).Some?
      ensures wallets == if updated then AtomicDebit(old(wallets), user, amount).value else old(wallets)
    {
      updated := user in wallets && wallets[user].status == Active && wallets[user].balance >= amount;
      if updated {
        wallets := wallets[user := wallets[user].(balance := wallets[user].balance - amount)];
      }
    }

    method CreditWallet(user: Id, amount: nat) returns (updated: bool)
      modifies this`wallets
      ensures updated <==> AtomicCredit(old(wallets), user, amount).Some?
      ensures wallets == if updated then AtomicCredit(old(wallets), user, amount).value else old(wallets)
    {
      updated := user in wallets && wallets[user].status == Active;
      if updated {
        wallets := wallets[user := wallets[user].(balance := wallets[user].balance + amount)];
      }
    }

    method Move(user: Id, amount: nat, kind: EntryKind, direction: Direction, payment: Id, session: Option<Id>)
      returns (moved: bool)
      modifies this`wallets, this`ledger
      ensures var result := ApplyMovement(old(Snapshot()), user, amount, kind, direction, payment, session);
              moved == result.Some? && Snapshot() == if moved then result.value else old(Snapshot())
    {
      if direction == Debit {
        moved := DebitWallet(user, amount);
      } else {
        moved := CreditWallet(user, amount);
      }
      if moved {
        var after := wallets[user].balance;
        var before := if direction == Debit then after + amount else after - amount;
        ledger := ledger + [Entry(user, kind, direction, amount, before, after, payment, session)];
      }
    }

    // Aborting a transaction puts every collection back.
    method Rollback(saved: Db)
      modifies this
      ensures Snapshot() == saved
    {
      wallets, ledger, payments, charges := saved.wallets, saved.ledger, saved.payments, saved.charges;
    }

    // Adds up the ledger and compares it with the stored balance.
    method Reconcile(user: Id) returns (ledgerBalance: int, storedBalance: int, matches: bool)
      ensures ledgerBalance == Sum(ledger, Books.Signed(user)) && storedBalance == Books.Balance(Snapshot(), user)
      ensures matches <==> ledgerBalance == storedBalance
      ensures Books.DbSound(Snapshot()) ==> matches
    {
      ledgerBalance := 0;
      for i := 0 to |ledger|
        invariant ledgerBalance == Sum(ledger[..i], Books.Signed(user))
      {
        assert ledger[..i + 1] == ledger[..i] + [ledger[i]];
        SumAppend(ledger[..i], ledger[i], Books.Signed(user));
        if ledger[i].user == user {
          var amount: int := ledger[i].amount;
          ledgerBalance := ledgerBalance + if ledger[i].direction == Credit then amount else -amount;
        }
      }
      assert ledger[..|ledger|] == ledger;
      storedBalance := if user in wallets then wallets[user].balance else 0;
      matches := ledgerBalance == storedBalance;
      assert Books.DbSound(Snapshot()) ==> matches by {
        if Books.DbSound(Snapshot()) {
          Books.LedgerReconciles(Snapshot(), user);
        }
      }
    }

    method SettleSession(session: Id, now: int) returns (settled: Settled)
      modifies this
      ensures (Snapshot(), settled) == Settling.SettleSession(old(Snapshot()), session, now)
      ensures Books.DbSound(old(Snapshot())) ==>
                if Settling.Collectable(old(Snapshot()), session)
                then Settling.Attempt(old(Snapshot()), Snapshot(), session, now, settled)
                else settled == Skipped && Snapshot() == old(Snapshot())
    {
      ghost var start := Snapshot();
      CallEffect(start, session, now);
      if session >= |charges| {
        assert Settling.Finish(start, SettleDone(Skipped), now) == (start, SettleDone(Skipped));
        return Skipped;
      }
      var charge := charges[session];
      if charge.paid || charge.amount.None? || charge.amount.value == 0 {
        assert Settling.Finish(start, SettleDone(Skipped), now) == (start, SettleDone(Skipped));
        return Skipped;
      }
      var user, amount := charge.user, charge.amount.value;
      assert Settling.Finish(start, SettleRead(session), now)
             == Settling.Finish(start, SettleWallet(session, user, amount), now);

      GetOrCreateWallet(user);
      ghost var walleted := Snapshot();
      assert Settling.Finish(start, SettleWallet(session, user, amount), now)
          == Settling.Finish(walleted, SettleFind(session, user, amount), now);

      var found := FindLive(payments, session);
      var payment, attempts;
      if found.Some? {
        payment, attempts := found.value, payments[found.value].attempts;
        if payments[payment].status == Paid {
          assert Settling.Finish(walleted, SettleFind(session, user, amount), now)
              == Settling.Finish(walleted, SettleDone(Skipped), now) == (walleted, SettleDone(Skipped));
          return Skipped;
        }
      } else {
        payment, attempts := |payments|, 0;
        payments := payments +
          [Payment(user, SessionCollection, Some(session), amount, Pending, None, None, 0, None, None)];
        assert Settling.Finish(walleted, SettleFind(session, user, amount), now)
            == Settling.Finish(walleted, SettleCreate(session, user, amount), now);
        assert Settling.Finish(walleted, SettleCreate(session, user, amount), now)
            == Settling.Finish(Snapshot(), SettleCollect(session, user, amount, payment, attempts), now);
      }
      settled := Collect(session, user, amount, payment, attempts, now);
    }

    // The transaction, and the bookkeeping that must survive its rollback.
    method Collect(session: Id, user: Id, amount: nat, payment: Id, attempts: nat, now: int) returns (settled: Settled)
      requires payment < |payments| && session < |charges|
      modifies this
      ensures (Snapshot(), SettleDone(settled))
              == Settling.Finish(old(Snapshot()), SettleCollect(session, user, amount, payment, attempts), now)
    {
      var saved := Snapshot();
      var moved := Move(user, amount, SessionDebit, Debit, payment, Some(session));
      if !moved {
        settled := Deferred;
      } else if payments[payment].status != Pending {
        Rollback(saved);
        settled := Skipped;
      } else {
        payments := payments[payment := payments[payment].(status := Paid, paidAt := Some(now), nextAttemptAt := None)];
        charges := charges[session := charges[session].(paid := true)];
        settled := Collected;
      }
      if settled == Deferred {
        assert Settling.Finish(saved, SettleCollect(session, user, amount, payment, attempts), now)
            == Settling.Finish(saved, SettleBook(session, payment, attempts), now);
        payments := payments[payment := payments[payment].(
          attempts := attempts + 1, nextAttemptAt := Some(now + RetryDelayMs(attempts + 1)))];
        assert Settling.Finish(saved, SettleBook(session, payment, attempts), now)
            == Settling.Finish(Snapshot(), SettleDone(Deferred), now) == (Snapshot(), SettleDone(Deferred));
      } else {
        assert Settling.Finish(saved, SettleCollect(session, user, amount, payment, attempts), now)
            == Settling.Finish(Snapshot(), SettleDone(settled), now) == (Snapshot(), SettleDone(settled));
      }
    }

    method VerifyAndCredit(orderId: string, reference: string, signed: bool, actor: Option<Id>, now: int)
      returns (verified: Verified)
      modifies this
      ensures (Snapshot(), VerifyDone(verified))
              == Settling.Finish(old(Snapshot()), VerifyRead(orderId, reference, signed, actor), now)
      ensures Settling.ConfirmedOnce(old(Snapshot()), Snapshot(), verified, orderId, reference, signed, actor, now)
    {
      Settling.VerifyEffect(Snapshot(), orderId, reference, signed, actor, now);
      var saved := Snapshot();
      if !signed {
        return Refused;
      }
      var found := FindOrder(payments, orderId);
      if found.None? {
        return Refused;
      }
      var payment := found.value;
      var row := payments[payment];
      if actor.Some? && actor.value != row.user {
        return Refused;
      }
      if row.status == Paid {
        return AlreadyProcessed;
      }
      if row.status != Pending {
        return Refused;
      }
      assert Settling.Finish(saved, VerifyRead(orderId, reference, signed, actor), now)
          == Settling.Finish(saved, VerifyClaim(payment, row.user, row.amount, reference), now);
      var owner := FindProviderPayment(payments, reference);
      if owner.Some? && owner.value != payment {
        verified := AlreadyProcessed;
      } else {
        payments := payments[payment :=
          row.(status := Paid, providerPaymentId := Some(reference), paidAt := Some(now))];
        var credited := Move(row.user, row.amount, Recharge, Credit, payment, None);
        if credited {
          verified := Credited;
        } else {
          Rollback(saved);
          verified := Refused;
        }
      }
      assert Settling.Finish(saved, VerifyClaim(payment, row.user, row.amount, reference), now)
          == Settling.Finish(Snapshot(), VerifyDone(verified), now) == (Snapshot(), VerifyDone(verified));
    }

    // A captured payment takes the same path as a browser's confirmation, signed by ourselves.
    method HandleWebhook(orderId: string, reference: string, now: int) returns (verified: Verified)
      modifies this
      ensures (Snapshot(), VerifyDone(verified))
              == Settling.Finish(old(Snapshot()), WebhookRead(orderId, reference), now)
      ensures Settling.ConfirmedOnce(old(Snapshot()), Snapshot(), verified, orderId, reference, true, None, now)
    {
      Settling.WebhookEffect(Snapshot(), orderId, reference, now);
      var found := FindOrder(payments, orderId);
      if found.None? {
        return Refused;
      }
      if payments[found.value].status == Paid {
        return AlreadyProcessed;
      }
      assert Settling.Finish(Snapshot(), WebhookRead(orderId, reference), now)
          == Settling.Finish(Snapshot(), VerifyRead(orderId, reference, true, None), now);
      verified := VerifyAndCredit(orderId, reference, true, None, now);
    }

    method ReverseRecharge(payment: Id) returns (reversed: bool)
      modifies this
      ensures Snapshot() == RefundRecharge(old(Snapshot()), payment)
      ensures reversed <==> Settling.Reversible(old(Snapshot()), payment)
      ensures if reversed then Settling.ReversedBy(old(Snapshot()), Snapshot(), payment)
              else Snapshot() == old(Snapshot())
    {
      Settling.RefundEffect(Snapshot(), payment);
      if payment >= |payments| || payments[payment].purpose != WalletRecharge || payments[payment].status != Paid {
        return false;
      }
      var row := payments[payment];
      reversed := Move(row.user, row.amount, Refund, Debit, payment, None);
      if reversed {
        payments := payments[payment := row.(status := Refunded)];
      }
    }

    // The unpaid charges arrive as the query listed them; the loop stops at the first shortfall.
    method SettleOutstandingForUser(unpaid: seq<Id>, times: seq<int>) returns (settled: nat)
      requires |times| == |unpaid|
      modifies this
      ensures (Snapshot(), settled) == TopUp.SettleOutstanding(old(Snapshot()), unpaid, times)
    {
      settled := 0;
      for i := 0 to |unpaid|
        invariant var (last, n) := TopUp.SettleOutstanding(Snapshot(), unpaid[i..], times[i..]);
                  TopUp.SettleOutstanding(old(Snapshot()), unpaid, times) == (last, settled + n)
      {
        assert unpaid[i..][1..] == unpaid[i + 1..] && times[i..][1..] == times[i + 1..];
        var result := SettleSession(unpaid[i], times[i]);
        if result == Collected {
          settled := settled + 1;
        } else if result == Deferred {
          return;
        }
      }
    }

    // One attempt of the sweep, counted if it collected.
    method SettleAndCount(session: Id, now: int, settled: nat) returns (count: nat)
      modifies this
      ensures var (after, result) := Settling.SettleSession(old(Snapshot()), session, now);
              Snapshot() == after && count == if result == Collected then settled + 1 else settled
    {
      var result := SettleSession(session, now);
      count := if result == Collected then settled + 1 else settled;
    }

    method SweepUnsettledSessions(call: Sweeper.Call) returns (settled: nat)
      requires Sweeper.Timed(call)
      modifies this
      ensures Snapshot() == Sweeper.Sweep(old(Snapshot()), call)
      ensures settled == Sweeper.SettleEach(old(Snapshot()), Sweeper.Worklist(old(Snapshot()), call), call.times).1
    {
      var work, times := Sweeper.Worklist(Snapshot(), call), call.times;
      settled := 0;
      assert work[0..] == work && times[0..] == times;
      for i := 0 to |work|
        invariant var (last, n) := Sweeper.SettleEach(Snapshot(), work[i..], times[i..]);
                  Sweeper.SettleEach(old(Snapshot()), work, times) == (last, settled + n)
      {
        OneOfMany(Snapshot(), work, times, i);
        settled := SettleAndCount(work[i], times[i], settled);
      }
    }
  }

  // One turn of the sweep's loop.
  lemma OneOfMany(db: Db, ids: seq<Id>, times: seq<int>, i: nat)
    requires i < |ids| == |times|
    ensures var (db', settled) := Settling.SettleSession(db, ids[i], times[i]);
            var (last, n) := Sweeper.SettleEach(db', ids[i + 1..], times[i + 1..]);
            Sweeper.SettleEach(db, ids[i..], times[i..]) == (last, if settled == Collected then n + 1 else n)
  {
    assert ids[i..][1..] == ids[i + 1..] && times[i..][1..] == times[i + 1..];
  }

  // What a call does, where the books balance.
  lemma CallEffect(db: Db, session: Id, now: int)
    ensures Books.DbSound(db) ==>
              var (db', settled) := Settling.SettleSession(db, session, now);
              if Settling.Collectable(db, session) then Settling.Attempt(db, db', session, now, settled)
              else settled == Skipped && db' == db
  {
    if Books.DbSound(db) {
      Settling.SettleAlone(db, session, now);
    }
  }
}
