// Wallets, the ledger, payment rows and the callers that move money between them.
//
// The database is one value. Every caller of settleSession, verifyAndCredit or handleWebhook is a
// program counter with the local copies that its source keeps between awaits, and every await is
// a place where any other caller may run. A multi-document transaction is one step: it commits
// whole or changes nothing.

module Settlement {
  import opened Options
  import opened Backoff

  type Id = nat

  datatype WalletStatus = Active | Blocked
  datatype Wallet = Wallet(balance: int, status: WalletStatus)

  datatype Direction = Credit | Debit
  datatype EntryKind = Recharge | SessionDebit | Refund

  // walletTransaction.model.ts. A wallet is keyed by its user, the unique field of the collection.
  datatype Entry = Entry(
    user: Id, kind: EntryKind, direction: Direction, amount: nat,
    before: int, after: int, payment: Id, session: Option<Id>)

  datatype Purpose = WalletRecharge | SessionCollection
  datatype PaymentStatus = Pending | Paid | Failed | Refunded

  datatype Payment = Payment(
    user: Id, purpose: Purpose, session: Option<Id>, amount: nat, status: PaymentStatus,
    orderId: Option<string>, providerPaymentId: Option<string>,
    attempts: nat, nextAttemptAt: Option<int>, paidAt: Option<int>)

  // The fields of a charging session that collection reads: who owes, how much, since when.
  datatype Charge = Charge(user: Id, amount: Option<nat>, endedAt: Option<int>, paid: bool)

  // A payment row or a charge is named by its place in insertion order.
  datatype Db = Db(wallets: map<Id, Wallet>, ledger: seq<Entry>, payments: seq<Payment>, charges: seq<Charge>)

  predicate Live(status: PaymentStatus) {
    status == Pending || status == Paid
  }

  // The partial unique index one_live_payment_per_session, as a query.
  function FindLive(payments: seq<Payment>, session: Id): (found: Option<Id>)
    ensures found.Some? ==>
              found.value < |payments| && payments[found.value].session == Some(session) &&
              Live(payments[found.value].status)
    ensures found.None? ==>
              forall i :: 0 <= i < |payments| ==> !(payments[i].session == Some(session) && Live(payments[i].status))
  {
    if payments == [] then None
    else
      var n := |payments| - 1;
      if payments[n].session == Some(session) && Live(payments[n].status) then Some(n)
      else FindLive(payments[..n], session)
  }

  function FindOrder(payments: seq<Payment>, orderId: string): (found: Option<Id>)
    ensures found.Some? ==> found.value < |payments| && payments[found.value].orderId == Some(orderId)
    ensures found.None? ==> forall i :: 0 <= i < |payments| ==> payments[i].orderId != Some(orderId)
  {
    if payments == [] then None
    else
      var n := |payments| - 1;
      if payments[n].orderId == Some(orderId) then Some(n) else FindOrder(payments[..n], orderId)
  }

  function FindProviderPayment(payments: seq<Payment>, reference: string): (found: Option<Id>)
    ensures found.Some? ==> found.value < |payments| && payments[found.value].providerPaymentId == Some(reference)
    ensures found.None? ==> forall i :: 0 <= i < |payments| ==> payments[i].providerPaymentId != Some(reference)
  {
    if payments == [] then None
    else
      var n := |payments| - 1;
      if payments[n].providerPaymentId == Some(reference) then Some(n)
      else FindProviderPayment(payments[..n], reference)
  }

  /* ---------------------------- wallet.service.ts ---------------------------- */

  function OpenWallet(wallets: map<Id, Wallet>, user: Id): map<Id, Wallet> {
    if user in wallets then wallets else wallets[user := Wallet(0, Active)]
  }

  function AtomicDebit(wallets: map<Id, Wallet>, user: Id, amount: nat): Option<map<Id, Wallet>> {
    if user in wallets && wallets[user].status == Active && wallets[user].balance >= amount
    then Some(wallets[user := wallets[user].(balance := wallets[user].balance - amount)])
    else None
  }

  function AtomicCredit(wallets: map<Id, Wallet>, user: Id, amount: nat): Option<map<Id, Wallet>> {
    if user in wallets && wallets[user].status == Active
    then Some(wallets[user := wallets[user].(balance := wallets[user].balance + amount)])
    else None
  }

  function ApplyMovement(db: Db, user: Id, amount: nat, kind: EntryKind, direction: Direction,
                         payment: Id, session: Option<Id>): Option<Db>
  {
    var moved := if direction == Debit then AtomicDebit(db.wallets, user, amount)
                 else AtomicCredit(db.wallets, user, amount);
    if moved.None? then None
    else
      var after := moved.value[user].balance;
      var before := if direction == Debit then after + amount else after - amount;
      Some(db.(wallets := moved.value,
               ledger := db.ledger + [Entry(user, kind, direction, amount, before, after, payment, session)]))
  }

  /* ---------------------------- payment.service.ts --------------------------- */

  datatype Settled = Collected | Deferred | Skipped
  datatype Verified = Credited | AlreadyProcessed | Refused

  // Where a caller stands, with what it has read so far.
  datatype Caller =
    | SettleRead(session: Id)
    | SettleWallet(session: Id, user: Id, amount: nat)
    | SettleFind(session: Id, user: Id, amount: nat)
    | SettleCreate(session: Id, user: Id, amount: nat)
    | SettleCollect(session: Id, user: Id, amount: nat, payment: Id, attempts: nat)
    | SettleBook(session: Id, payment: Id, attempts: nat)
    | SettleDone(settled: Settled)
    | WebhookRead(orderId: string, reference: string)
    | VerifyRead(orderId: string, reference: string, signed: bool, actor: Option<Id>)
    | VerifyClaim(payment: Id, user: Id, amount: nat, reference: string)
    | VerifyDone(verified: Verified)

  predicate Done(c: Caller) {
    c.SettleDone? || c.VerifyDone?
  }

  function StepSettleRead(db: Db, session: Id): Caller {
    if session >= |db.charges| then SettleDone(Skipped)
    else
      var charge := db.charges[session];
      if charge.paid || charge.amount.None? || charge.amount.value == 0 then SettleDone(Skipped)
      else SettleWallet(session, charge.user, charge.amount.value)
  }

  function StepSettleFind(db: Db, session: Id, user: Id, amount: nat): Caller {
    match FindLive(db.payments, session)
    case None => SettleCreate(session, user, amount)
    case Some(p) =>
      if db.payments[p].status == Paid then SettleDone(Skipped)
      else SettleCollect(session, user, amount, p, db.payments[p].attempts)
  }

  function StepSettleCreate(db: Db, session: Id, user: Id, amount: nat): (Db, Caller) {
    if FindLive(db.payments, session).Some? then (db, SettleDone(Skipped))
    else
      var row := Payment(user, SessionCollection, Some(session), amount, Pending, None, None, 0, None, None);
      (db.(payments := db.payments + [row]), SettleCollect(session, user, amount, |db.payments|, 0))
  }

  // The transaction: debit, claim, mark the session; or nothing at all.
  function StepSettleCollect(db: Db, session: Id, user: Id, amount: nat, payment: Id, attempts: nat, now: int)
    : (Db, Caller)
  {
    match ApplyMovement(db, user, amount, SessionDebit, Debit, payment, Some(session))
    case None => (db, SettleBook(session, payment, attempts))
    case Some(moved) =>
      if payment >= |db.payments| || session >= |db.charges| || db.payments[payment].status != Pending
      then (db, SettleDone(Skipped))
      else
        var claimed := db.payments[payment].(status := Paid, paidAt := Some(now), nextAttemptAt := None);
        (moved.(payments := db.payments[payment := claimed],
                charges := db.charges[session := db.charges[session].(paid := true)]),
         SettleDone(Collected))
  }

  // payment.save() writes the two modified fields only, from the caller's own copy of `attempts`.
  function StepSettleBook(db: Db, payment: Id, attempts: nat, now: int): (Db, Caller) {
    if payment >= |db.payments| then (db, SettleDone(Deferred))
    else
      var row := db.payments[payment].(attempts := attempts + 1,
                                       nextAttemptAt := Some(now + RetryDelayMs(attempts + 1)));
      (db.(payments := db.payments[payment := row]), SettleDone(Deferred))
  }

  function StepWebhookRead(db: Db, orderId: string, reference: string): Caller {
    match FindOrder(db.payments, orderId)
    case None => VerifyDone(Refused)
    case Some(p) =>
      if db.payments[p].status == Paid then VerifyDone(AlreadyProcessed)
      else VerifyRead(orderId, reference, true, None)
  }

  function StepVerifyRead(db: Db, orderId: string, reference: string, signed: bool, actor: Option<Id>): Caller {
    if !signed then VerifyDone(Refused)
    else
      match FindOrder(db.payments, orderId)
      case None => VerifyDone(Refused)
      case Some(p) =>
        var row := db.payments[p];
        if actor.Some? && actor.value != row.user then VerifyDone(Refused)
        else if row.status == Paid then VerifyDone(AlreadyProcessed)
        else if row.status != Pending then VerifyDone(Refused)
        else VerifyClaim(p, row.user, row.amount, reference)
  }

  // The transaction: claim the row, then credit; a duplicate provider payment or a refused credit
  // rolls both back.
  function StepVerifyClaim(db: Db, payment: Id, user: Id, amount: nat, reference: string, now: int): (Db, Caller) {
    if payment >= |db.payments| || db.payments[payment].status != Pending then (db, VerifyDone(AlreadyProcessed))
    else
      var owner := FindProviderPayment(db.payments, reference);
      if owner.Some? && owner.value != payment then (db, VerifyDone(AlreadyProcessed))
      else
        match ApplyMovement(db, user, amount, Recharge, Credit, payment, None)
        case None => (db, VerifyDone(Refused))
        case Some(moved) =>
          var claimed := db.payments[payment].(
            status := Paid, providerPaymentId := Some(reference), paidAt := Some(now));
          (moved.(payments := db.payments[payment := claimed]), VerifyDone(Credited))
  }

  function StepCaller(db: Db, c: Caller, now: int): (Db, Caller) {
    match c
    case SettleRead(s) => (db, StepSettleRead(db, s))
    case SettleWallet(s, u, a) => (db.(wallets := OpenWallet(db.wallets, u)), SettleFind(s, u, a))
    case SettleFind(s, u, a) => (db, StepSettleFind(db, s, u, a))
    case SettleCreate(s, u, a) => StepSettleCreate(db, s, u, a)
    case SettleCollect(s, u, a, p, n) => StepSettleCollect(db, s, u, a, p, n, now)
    case SettleBook(s, p, n) => StepSettleBook(db, p, n, now)
    case WebhookRead(o, r) => (db, StepWebhookRead(db, o, r))
    case VerifyRead(o, r, signed, actor) => (db, StepVerifyRead(db, o, r, signed, actor))
    case VerifyClaim(p, u, a, r) => StepVerifyClaim(db, p, u, a, r, now)
    case SettleDone(_) => (db, c)
    case VerifyDone(_) => (db, c)
  }

  // refundRecharge, taken whole.
  function RefundRecharge(db: Db, payment: Id): Db {
    if payment >= |db.payments| then db
    else
      var row := db.payments[payment];
      if row.purpose != WalletRecharge || row.status != Paid then db
      else
        match ApplyMovement(db, row.user, row.amount, Refund, Debit, payment, None)
        case None => db
        case Some(moved) => moved.(payments := db.payments[payment := row.(status := Refunded)])
  }

  const MIN_RECHARGE_PAISE := 1_000
  const MAX_RECHARGE_PAISE := 1_000_000

  function CreateOrder(db: Db, user: Id, amount: nat): Db {
    if amount < MIN_RECHARGE_PAISE || amount > MAX_RECHARGE_PAISE then db
    else
      var ready := db.(wallets := OpenWallet(db.wallets, user));
      if ready.wallets[user].status != Active then ready
      else
        ready.(payments := db.payments +
          [Payment(user, WalletRecharge, None, amount, Pending, None, None, 0, None, None)])
  }

  // The provider's answer to a new order: an order id, or an outage.
  function AnswerOrder(db: Db, payment: Id, orderId: Option<string>): Db {
    if payment >= |db.payments| then db
    else
      var row := db.payments[payment];
      if row.purpose != WalletRecharge || row.status != Pending || row.orderId.Some? then db
      else if orderId.None? then db.(payments := db.payments[payment := row.(status := Failed)])
      else if FindOrder(db.payments, orderId.value).Some? then db
      else db.(payments := db.payments[payment := row.(orderId := orderId)])
  }

  // The pre-save pricing hook, seen from the money side: priced once, paid on the spot at zero.
  function PriceCharge(db: Db, session: Id, amount: nat, endedAt: int): Db {
    if session >= |db.charges| || db.charges[session].amount.Some? then db
    else
      var charge := db.charges[session];
      var priced := charge.(amount := Some(amount), endedAt := Some(endedAt), paid := charge.paid || amount == 0);
      db.(charges := db.charges[session := priced])
  }

  /* ------------------------------ interleavings ------------------------------ */

  datatype Action =
    | OpenCharge(user: Id)
    | Price(session: Id, amount: nat, endedAt: int)
    | Order(user: Id, amount: nat)
    | OrderAnswered(payment: Id, orderId: Option<string>)
    | Reverse(payment: Id)
    | Freeze(user: Id, status: WalletStatus)
    | Call(caller: Caller)
    | Advance(index: nat, now: int)

  datatype System = System(db: Db, callers: seq<Caller>)

  const EMPTY := System(Db(map[], [], [], []), [])

  // A new caller of one of the three entry points.
  predicate Entering(c: Caller) {
    c.SettleRead? || c.WebhookRead? || c.VerifyRead?
  }

  function Next(sys: System, action: Action): System {
    var db := sys.db;
    match action
    case OpenCharge(user) => sys.(db := db.(charges := db.charges + [Charge(user, None, None, false)]))
    case Price(session, amount, endedAt) => sys.(db := PriceCharge(db, session, amount, endedAt))
    case Order(user, amount) => sys.(db := CreateOrder(db, user, amount))
    case OrderAnswered(payment, orderId) => sys.(db := AnswerOrder(db, payment, orderId))
    case Reverse(payment) => sys.(db := RefundRecharge(db, payment))
    case Freeze(user, status) =>
      if user in db.wallets
      then sys.(db := db.(wallets := db.wallets[user := db.wallets[user].(status := status)]))
      else sys
    case Call(c) => if Entering(c) then sys.(callers := sys.callers + [c]) else sys
    case Advance(i, now) =>
      if i >= |sys.callers| then sys
      else
        var (db', c') := StepCaller(db, sys.callers[i], now);
        System(db', sys.callers[i := c'])
  }

  function Run(sys: System, actions: seq<Action>): System {
    if actions == [] then sys
    else Next(Run(sys, actions[..|actions| - 1]), actions[|actions| - 1])
  }

  lemma RunOne(sys: System, actions: seq<Action>, a: Action)
    ensures Run(sys, actions + [a]) == Next(Run(sys, actions), a)
  {
    assert (actions + [a])[..|actions|] == actions;
  }

  lemma RunTwo(sys: System, a: Action, b: Action)
    ensures Run(sys, [a]) == Next(sys, a) && Run(sys, [a, b]) == Next(Next(sys, a), b)
  {
    RunOne(sys, [], a);
    assert [] + [a] == [a];
    RunOne(sys, [a], b);
    assert [a] + [b] == [a, b];
  }

  lemma {:induction false} RunThen(sys: System, actions: seq<Action>, more: seq<Action>)
    ensures Run(sys, actions + more) == Run(Run(sys, actions), more)
  {
    if more == [] {
      assert actions + more == actions;
    } else {
      var n := |more| - 1;
      RunThen(sys, actions, more[..n]);
      assert (actions + more)[..|actions + more| - 1] == actions + more[..n];
    }
  }
}
