// One settleSession call run without interruption, and lists of them: the top-up loop.

module Settling {
  import opened Options
  import opened Backoff
  import opened Settlement
  import opened Books

  predicate Settles(c: Caller) {
    c.SettleRead? || c.SettleWallet? || c.SettleFind? || c.SettleCreate? || c.SettleCollect? || c.SettleBook?
      || c.SettleDone?
  }

  function StepsLeft(c: Caller): nat {
    match c
    case SettleRead(_) => 6
    case SettleWallet(_, _, _) => 5
    case SettleFind(_, _, _) => 4
    case SettleCreate(_, _, _) => 3
    case SettleCollect(_, _, _, _, _) => 2
    case SettleBook(_, _, _) => 1
    case SettleDone(_) => 0
    case WebhookRead(_, _) => 3
    case VerifyRead(_, _, _, _) => 2
    case VerifyClaim(_, _, _, _) => 1
    case VerifyDone(_) => 0
  }

  // Drives one caller to its end with nobody else running. A call reads the clock once: for the
  // time of payment, or for the next attempt.
  function Finish(db: Db, c: Caller, now: int): (result: (Db, Caller))
    ensures Done(result.1) && (Settles(c) <==> result.1.SettleDone?)
    decreases StepsLeft(c)
  {
    if Done(c) then (db, c)
    else
      var (db', c') := StepCaller(db, c, now);
      Finish(db', c', now)
  }

  function SettleSession(db: Db, session: Id, now: int): (Db, Settled) {
    var (db', c) := Finish(db, SettleRead(session), now);
    (db', c.settled)
  }

  predicate Collectable(db: Db, s: Id) {
    s < |db.charges| && !db.charges[s].paid && db.charges[s].amount.Some? && db.charges[s].amount.value > 0
  }

  predicate Affordable(db: Db, user: Id, amount: nat) {
    user in db.wallets && db.wallets[user].status == Active && db.wallets[user].balance >= amount
  }

  // The row a call on this charge works on: the live one, or the next to be inserted.
  function RowFor(db: Db, s: Id): Id {
    var row := FindLive(db.payments, s);
    if row.Some? then row.value else |db.payments|
  }

  function AttemptsSoFar(db: Db, s: Id): nat {
    var row := FindLive(db.payments, s);
    if row.Some? then db.payments[row.value].attempts else 0
  }

  // All that one uninterrupted call on a collectable charge does.
  ghost predicate Attempt(db: Db, db': Db, s: Id, now: int, settled: Settled)
    requires Collectable(db, s)
  {
    var charge := db.charges[s];
    var amount := charge.amount.value;
    var p := RowFor(db, s);
    && settled == (if Affordable(db, charge.user, amount) then Collected else Deferred)
    && db'.charges == db.charges[s := charge.(paid := settled == Collected)]
    && |db'.payments| == (if p < |db.payments| then |db.payments| else p + 1)
    && (forall i :: 0 <= i < |db.payments| && i != p ==> db'.payments[i] == db.payments[i])
    && db'.payments[p].session == Some(s) && db'.payments[p].purpose == SessionCollection
    && (settled == Collected ==>
          && db'.payments[p].status == Paid && db'.payments[p].paidAt == Some(now)
          && db'.payments[p].nextAttemptAt.None? && |db'.ledger| == |db.ledger| + 1)
    && (settled == Deferred ==>
          && db'.payments[p].status == Pending && db'.ledger == db.ledger
          && db'.payments[p].attempts == AttemptsSoFar(db, s) + 1
          && db'.payments[p].nextAttemptAt == Some(now + RetryDelayMs(AttemptsSoFar(db, s) + 1)))
    && (forall u: Id ::
          Balance(db', u) == Balance(db, u) - if settled == Collected && u == charge.user then amount else 0)
    && (forall u :: u in db.wallets ==> u in db'.wallets && db'.wallets[u].status == db.wallets[u].status)
  }

  // The transaction and the bookkeeping after it, once a pending row is in hand.
  lemma CollectEffect(db: Db, s: Id, now: int)
    requires Collectable(db, s) && FindLive(db.payments, s).Some?
    requires var row := db.payments[RowFor(db, s)]; row.status == Pending && row.purpose == SessionCollection
    ensures var charge := db.charges[s];
            var collect := SettleCollect(s, charge.user, charge.amount.value, RowFor(db, s), AttemptsSoFar(db, s));
            var (db', c') := Finish(db, collect, now);
            c'.settled != Skipped && Attempt(db, db', s, now, c'.settled)
  {
    var user, amount := db.charges[s].user, db.charges[s].amount.value;
    var (p, attempts) := (RowFor(db, s), AttemptsSoFar(db, s));
    var (db1, c1) := StepSettleCollect(db, s, user, amount, p, attempts, now);
    if c1.SettleBook? {
      var (db2, c2) := StepSettleBook(db1, p, attempts, now);
      assert Finish(db1, c1, now) == Finish(db2, c2, now) == (db2, c2);
    } else {
      assert Finish(db1, c1, now) == (db1, c1);
    }
  }

  lemma {:induction false} FinishSound(db: Db, c: Caller, now: int)
    requires DbSound(db) && CallerSound(db, c)
    ensures DbSound(Finish(db, c, now).0) && Grows(db, Finish(db, c, now).0)
    decreases StepsLeft(c)
  {
    if !Done(c) {
      var (db', c') := StepCaller(db, c, now);
      StepCallerSound(db, c, now);
      assert Finish(db, c, now) == Finish(db', c', now);
      FinishSound(db', c', now);
    }
  }

  lemma SettleAlone(db: Db, s: Id, now: int)
    requires DbSound(db)
    ensures var (db', settled) := SettleSession(db, s, now);
            && DbSound(db') && Grows(db, db')
            && (settled == Skipped <==> !Collectable(db, s))
            && (!Collectable(db, s) ==> db' == db)
            && (Collectable(db, s) ==> Attempt(db, db', s, now, settled))
  {
    if !Collectable(db, s) {
      assert Finish(db, SettleDone(Skipped), now) == (db, SettleDone(Skipped));
    } else {
      ReachesCollect(db, s, now);
      var ready := Ready(db, s);
      CollectEffect(ready, s, now);
      var (db', settled) := SettleSession(db, s, now);
      AttemptFromReady(db, db', s, now, settled);
    }
    FinishSound(db, SettleRead(s), now);
  }

  // The database when the transaction starts: the wallet exists and so does a live row.
  function Ready(db: Db, s: Id): Db
    requires Collectable(db, s)
  {
    var charge := db.charges[s];
    var walleted := db.(wallets := OpenWallet(db.wallets, charge.user));
    if FindLive(db.payments, s).Some? then walleted
    else StepSettleCreate(walleted, s, charge.user, charge.amount.value).0
  }

  lemma AttemptFromReady(db: Db, db': Db, s: Id, now: int, settled: Settled)
    requires Collectable(db, s)
    requires var ready := Ready(db, s);
             Collectable(ready, s) && FindLive(ready.payments, s) == Some(RowFor(db, s))
               && Attempt(ready, db', s, now, settled)
             && AttemptsSoFar(ready, s) == AttemptsSoFar(db, s)
    ensures Attempt(db, db', s, now, settled)
  {
  }

  // The reads of a call on a collectable charge lead to its transaction.
  lemma ReachesCollect(db: Db, s: Id, now: int)
    requires DbSound(db) && Collectable(db, s)
    ensures var ready := Ready(db, s); var charge := db.charges[s];
            && DbSound(ready) && Collectable(ready, s)
            && FindLive(ready.payments, s) == Some(RowFor(db, s)) && AttemptsSoFar(ready, s) == AttemptsSoFar(db, s)
            && ready.payments[RowFor(db, s)].status == Pending
            && ready.payments[RowFor(db, s)].purpose == SessionCollection
            && Finish(db, SettleRead(s), now)
               == Finish(ready, SettleCollect(s, charge.user, charge.amount.value, RowFor(db, s),
                                              AttemptsSoFar(db, s)), now)
  {
    var user, amount := db.charges[s].user, db.charges[s].amount.value;
    var walleted := db.(wallets := OpenWallet(db.wallets, user));
    var (p, attempts) := (RowFor(db, s), AttemptsSoFar(db, s));
    OpenWalletSound(db, user);
    assert ChargeSound(db, s);
    assert Finish(db, SettleRead(s), now) == Finish(db, SettleWallet(s, user, amount), now);
    assert Finish(db, SettleWallet(s, user, amount), now) == Finish(walleted, SettleFind(s, user, amount), now);
    if FindLive(db.payments, s).None? {
      var (created, collect) := StepSettleCreate(walleted, s, user, amount);
      SettleCreateSound(walleted, s, user, amount);
      assert Finish(walleted, SettleFind(s, user, amount), now) == Finish(walleted, SettleCreate(s, user, amount), now);
      assert Finish(walleted, SettleCreate(s, user, amount), now) == Finish(created, collect, now);
    } else {
      assert RowSound(db, db.payments[p]);
      assert Finish(walleted, SettleFind(s, user, amount), now)
          == Finish(walleted, SettleCollect(s, user, amount, p, attempts), now);
    }
  }

  // That row, as the call finds it or inserts it.
  function RowFound(db: Db, s: Id): Payment
    requires Collectable(db, s)
  {
    var row := FindLive(db.payments, s);
    if row.Some? then db.payments[row.value]
    else
      Payment(db.charges[s].user, SessionCollection, Some(s), db.charges[s].amount.value, Pending, None, None, 0, None,
        None)
  }

  // What the call makes of it: paid at the instant the money moved, or one attempt more.
  function RowLeft(db: Db, s: Id, now: int, settled: Settled): Payment
    requires Collectable(db, s)
  {
    var row := RowFound(db, s);
    if settled == Collected then row.(status := Paid, paidAt := Some(now), nextAttemptAt := None)
    else row.(attempts := row.attempts + 1, nextAttemptAt := Some(now + RetryDelayMs(row.attempts + 1)))
  }

  // The ledger row of a collection.
  function EntryLeft(db: Db, s: Id): Entry
    requires Collectable(db, s)
  {
    var charge := db.charges[s];
    var before := Balance(db, charge.user);
    Entry(charge.user, SessionDebit, Debit, charge.amount.value, before, before - charge.amount.value, RowFor(db, s),
      Some(s))
  }

  lemma CollectInFull(db: Db, s: Id, now: int)
    requires Collectable(db, s) && FindLive(db.payments, s).Some? && db.payments[RowFor(db, s)].status == Pending
    ensures var charge := db.charges[s];
            var collect := SettleCollect(s, charge.user, charge.amount.value, RowFor(db, s), AttemptsSoFar(db, s));
            var (db', c') := Finish(db, collect, now);
            && RowFor(db, s) < |db'.payments| && db'.payments[RowFor(db, s)] == RowLeft(db, s, now, c'.settled)
            && db'.ledger == db.ledger + if c'.settled == Collected then [EntryLeft(db, s)] else []
  {
    var user, amount := db.charges[s].user, db.charges[s].amount.value;
    var (p, attempts) := (RowFor(db, s), AttemptsSoFar(db, s));
    var (db1, c1) := StepSettleCollect(db, s, user, amount, p, attempts, now);
    if c1.SettleBook? {
      var (db2, c2) := StepSettleBook(db1, p, attempts, now);
      assert Finish(db1, c1, now) == Finish(db2, c2, now) == (db2, c2);
    } else {
      assert Finish(db1, c1, now) == (db1, c1);
    }
  }

  // What one call, run alone on a collectable charge, leaves in its row and in the ledger, field by field.
  lemma SettleInFull(db: Db, s: Id, now: int)
    requires DbSound(db) && Collectable(db, s)
    ensures var (db', settled) := SettleSession(db, s, now);
            && RowFor(db, s) < |db'.payments| && db'.payments[RowFor(db, s)] == RowLeft(db, s, now, settled)
            && db'.ledger == db.ledger + if settled == Collected then [EntryLeft(db, s)] else []
  {
    ReachesCollect(db, s, now);
    CollectInFull(Ready(db, s), s, now);
    SameRow(db, s, now, SettleSession(db, s, now).1);
    SameEntry(db, s);
  }

  lemma SameRow(db: Db, s: Id, now: int, settled: Settled)
    requires Collectable(db, s) && Collectable(Ready(db, s), s)
    requires FindLive(Ready(db, s).payments, s) == Some(RowFor(db, s))
    ensures RowLeft(Ready(db, s), s, now, settled) == RowLeft(db, s, now, settled)
  {
  }

  lemma SameEntry(db: Db, s: Id)
    requires Collectable(db, s) && Collectable(Ready(db, s), s)
    requires FindLive(Ready(db, s).payments, s) == Some(RowFor(db, s))
    ensures EntryLeft(Ready(db, s), s) == EntryLeft(db, s) && Ready(db, s).ledger == db.ledger
  {
  }

  // When a confirmation credits, seen from outside: signed, for a known order still pending, by its
  // own driver if a driver asks, with a provider payment no other row has, into an active wallet.
  predicate Creditable(db: Db, orderId: string, reference: string, signed: bool, actor: Option<Id>) {
    var order := FindOrder(db.payments, orderId);
    && signed && order.Some?
    && var row := db.payments[order.value];
       var owner := FindProviderPayment(db.payments, reference);
       row.status == Pending && (actor.None? || actor.value == row.user)
       && (owner.None? || owner.value == order.value)
       && row.user in db.wallets && db.wallets[row.user].status == Active
  }

  // The claim and the credit: the row is paid now, by this provider payment, and its driver's balance alone
  // rises by its amount.
  ghost predicate CreditedBy(db: Db, db': Db, p: Id, reference: string, now: int)
    requires p < |db.payments|
  {
    var row := db.payments[p];
    && db'.payments == db.payments[p := row.(
         status := Paid, providerPaymentId := Some(reference), paidAt := Some(now))]
    && db'.charges == db.charges
    && db'.ledger == db.ledger + [Entry(row.user, Recharge, Credit, row.amount, Balance(db, row.user),
                                        Balance(db, row.user) + row.amount, p, None)]
    && (forall u: Id :: Balance(db', u) == Balance(db, u) + if u == row.user then row.amount else 0)
    && (forall u :: u in db.wallets <==> u in db'.wallets)
    && (forall u :: u in db.wallets ==> db'.wallets[u].status == db.wallets[u].status)
  }

  // A repeat: the order is paid already, or its provider payment belongs to another row.
  predicate Repeated(db: Db, orderId: string, reference: string, signed: bool, actor: Option<Id>) {
    var order := FindOrder(db.payments, orderId);
    && signed && order.Some?
    && var row := db.payments[order.value];
       var owner := FindProviderPayment(db.payments, reference);
       (actor.None? || actor.value == row.user)
       && (row.status == Paid || (row.status == Pending && owner.Some? && owner.value != order.value))
  }

  // What a confirmation or a webhook comes to: a credit exactly when it may, an acknowledged repeat exactly
  // when it is one, a refusal otherwise; and nothing changes but by a credit.
  ghost predicate ConfirmedOnce(db: Db, db': Db, verified: Verified, orderId: string, reference: string,
                                signed: bool, actor: Option<Id>, now: int)
  {
    && (verified == Credited <==> Creditable(db, orderId, reference, signed, actor))
    && (verified == AlreadyProcessed <==> Repeated(db, orderId, reference, signed, actor))
    && if verified == Credited then CreditedBy(db, db', FindOrder(db.payments, orderId).value, reference, now)
       else db' == db
  }

  // One confirmation, run alone.
  lemma VerifyEffect(db: Db, orderId: string, reference: string, signed: bool, actor: Option<Id>, now: int)
    ensures var (db', c) := Finish(db, VerifyRead(orderId, reference, signed, actor), now);
            ConfirmedOnce(db, db', c.verified, orderId, reference, signed, actor, now)
  {
    var c1 := StepVerifyRead(db, orderId, reference, signed, actor);
    assert Finish(db, VerifyRead(orderId, reference, signed, actor), now) == Finish(db, c1, now);
    if c1.VerifyClaim? {
      var (db2, c2) := StepVerifyClaim(db, c1.payment, c1.user, c1.amount, c1.reference, now);
      assert Finish(db, c1, now) == Finish(db2, c2, now) == (db2, c2);
    }
  }

  // One captured webhook, run alone: it signs for itself and speaks for no driver.
  lemma WebhookEffect(db: Db, orderId: string, reference: string, now: int)
    ensures var (db', c) := Finish(db, WebhookRead(orderId, reference), now);
            ConfirmedOnce(db, db', c.verified, orderId, reference, true, None, now)
  {
    var c1 := StepWebhookRead(db, orderId, reference);
    assert Finish(db, WebhookRead(orderId, reference), now) == Finish(db, c1, now);
    if c1.VerifyRead? {
      VerifyEffect(db, orderId, reference, true, None, now);
    }
  }

  predicate BeingSettled(db: Db, session: Id) {
    exists i :: 0 <= i < |db.payments| && db.payments[i].session == Some(session) && Live(db.payments[i].status)
  }

  predicate Decided(db: Db, i: Id) {
    i < |db.payments| && db.payments[i].status != Pending
  }

  // Whoever comes second, in any interleaving: the session is being settled already, the debit is rolled back,
  // or the recharge is credited already; and nothing is changed.
  lemma SecondComesToNothing(db: Db, c: Caller, now: int)
    ensures c.SettleCreate? && BeingSettled(db, c.session) ==> StepCaller(db, c, now) == (db, SettleDone(Skipped))
    ensures c.SettleCollect? && Decided(db, c.payment) && Affordable(db, c.user, c.amount) ==>
              StepCaller(db, c, now) == (db, SettleDone(Skipped))
    ensures c.VerifyClaim? && Decided(db, c.payment) ==> StepCaller(db, c, now) == (db, VerifyDone(AlreadyProcessed))
  {
  }

  // A caller says that it collected, or credited, exactly when this step of its moved the money.
  lemma AnswersAreTrue(db: Db, c: Caller, now: int)
    requires !Done(c)
    ensures var (db', c') := StepCaller(db, c, now);
            var moved := |db'.ledger| == |db.ledger| + 1;
            && (moved || db'.ledger == db.ledger)
            && (c' == SettleDone(Collected) <==> moved && db'.ledger[|db.ledger|].kind == SessionDebit)
            && (c' == VerifyDone(Credited) <==> moved && db'.ledger[|db.ledger|].kind == Recharge)
  {
  }

  /* --------------------------------- reversals ------------------------------- */

  // A paid recharge that the active wallet still holds.
  predicate Reversible(db: Db, p: Id) {
    p < |db.payments| && db.payments[p].purpose == WalletRecharge && db.payments[p].status == Paid
    && Affordable(db, db.payments[p].user, db.payments[p].amount)
  }

  // The row is refunded, its driver's balance alone falls by its amount, and one debit says so.
  ghost predicate ReversedBy(db: Db, db': Db, p: Id)
    requires p < |db.payments|
  {
    var row := db.payments[p];
    && db'.payments == db.payments[p := row.(status := Refunded)] && db'.charges == db.charges
    && db'.ledger == db.ledger + [Entry(row.user, Refund, Debit, row.amount, Balance(db, row.user),
                                        Balance(db, row.user) - row.amount, p, None)]
    && (forall u: Id :: Balance(db', u) == Balance(db, u) - if u == row.user then row.amount else 0)
    && (forall u :: u in db.wallets <==> u in db'.wallets)
    && (forall u :: u in db.wallets ==> db'.wallets[u].status == db.wallets[u].status)
  }

  // A reversal takes the money back exactly when it can, and a second one changes nothing.
  lemma RefundEffect(db: Db, p: Id)
    ensures var db' := RefundRecharge(db, p);
            && (if Reversible(db, p) then ReversedBy(db, db', p) else db' == db)
            && RefundRecharge(db', p) == db'
  {
  }

  /* ----------------------------------- orders -------------------------------- */

  // An order within 10 and 10,000 rupees opens the driver's wallet if there is none, and is one pending row of
  // that amount unless it is blocked; any other leaves the rows as they were.
  lemma OrderEffect(db: Db, user: Id, amount: nat)
    ensures var db' := CreateOrder(db, user, amount);
            var taken := 1_000 <= amount <= 1_000_000 && (user in db.wallets ==> db.wallets[user].status == Active);
            && db'.charges == db.charges && db'.ledger == db.ledger
            && db'.wallets == (if 1_000 <= amount <= 1_000_000 && user !in db.wallets
                               then db.wallets[user := Wallet(0, Active)] else db.wallets)
            && db'.payments == db.payments + if taken then
                 [Payment(user, WalletRecharge, None, amount, Pending, None, None, 0, None, None)] else []
  {
  }

  predicate OrderTaken(db: Db, orderId: Option<string>) {
    exists i :: 0 <= i < |db.payments| && db.payments[i].orderId == orderId
  }

  // The provider's answer names the order, or fails it; once, and never with a name already taken.
  lemma AnswerEffect(db: Db, p: Id, orderId: Option<string>)
    ensures var db' := AnswerOrder(db, p, orderId);
            var waiting := p < |db.payments| && db.payments[p].purpose == WalletRecharge
                           && db.payments[p].status == Pending && db.payments[p].orderId.None?;
            && db'.wallets == db.wallets && db'.ledger == db.ledger && db'.charges == db.charges
            && (waiting && orderId.None? ==> db'.payments == db.payments[p := db.payments[p].(status := Failed)])
            && (waiting && orderId.Some? && !OrderTaken(db, orderId) ==>
                  db'.payments == db.payments[p := db.payments[p].(orderId := orderId)])
            && (!waiting || (orderId.Some? && OrderTaken(db, orderId)) ==> db' == db)
  {
  }

  // An administrator's freeze or release is what the wallet's status is from then on, and moves no money.
  lemma FreezeEffect(sys: System, user: Id, status: WalletStatus)
    requires user in sys.db.wallets
    ensures var db' := Next(sys, Freeze(user, status)).db;
            && db' == sys.db.(wallets := db'.wallets) && db'.wallets.Keys == sys.db.wallets.Keys
            && (forall u :: u in sys.db.wallets ==>
                  && db'.wallets[u].balance == sys.db.wallets[u].balance
                  && db'.wallets[u].status == if u == user then status else sys.db.wallets[u].status)
  {
  }
}
