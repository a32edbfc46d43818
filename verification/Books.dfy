// What every interleaving keeps: the books balance, and every charge is collected at most once.

module Books {
  import opened Options
  import opened Sums
  import opened Settlement

  /* ----------------------------- what is counted ----------------------------- */

  function Balance(db: Db, user: Id): int {
    if user in db.wallets then db.wallets[user].balance else 0
  }

  // reconcile: a user's ledger rows, signed.
  function Signed(user: Id): Entry -> int {
    (e: Entry) => if e.user != user then 0 else if e.direction == Credit then e.amount as int else -(e.amount as int)
  }

  // What a user's payment rows say the wallet should hold.
  function Worth(user: Id): Payment -> int {
    (p: Payment) =>
      if p.user != user || p.status != Paid then 0
      else if p.purpose == WalletRecharge then p.amount as int else -(p.amount as int)
  }

  function Hits(kind: EntryKind, payment: Id): Entry -> int {
    (e: Entry) => if e.kind == kind && e.payment == payment then 1 else 0
  }

  // How many ledger rows of a kind a payment row accounts for.
  function Due(row: Payment, kind: EntryKind): int {
    match kind
    case Recharge => if row.purpose == WalletRecharge && (row.status == Paid || row.status == Refunded) then 1 else 0
    case Refund => if row.purpose == WalletRecharge && row.status == Refunded then 1 else 0
    case SessionDebit => if row.purpose == SessionCollection && row.status == Paid then 1 else 0
  }

  // The balance after a user's most recent ledger row.
  function LastAfter(ledger: seq<Entry>, user: Id): int {
    if ledger == [] then 0
    else if ledger[|ledger| - 1].user == user then ledger[|ledger| - 1].after
    else LastAfter(ledger[..|ledger| - 1], user)
  }

  /* -------------------------------- invariant -------------------------------- */

  ghost predicate Chained(ledger: seq<Entry>) {
    forall i :: 0 <= i < |ledger| ==>
      && ledger[i].before == LastAfter(ledger[..i], ledger[i].user)
      && ledger[i].after == ledger[i].before + Signed(ledger[i].user)(ledger[i])
      && ledger[i].before >= 0 && ledger[i].after >= 0
  }

  ghost predicate WalletsSound(db: Db) {
    forall u: Id :: Balance(db, u) >= 0 && Balance(db, u) == LastAfter(db.ledger, u)
  }

  ghost predicate WorthSound(db: Db) {
    forall u: Id :: Balance(db, u) == Sum(db.payments, Worth(u))
  }

  predicate RowSound(db: Db, row: Payment) {
    match row.purpose
    case SessionCollection =>
      && row.session.Some? && row.session.value < |db.charges|
      && Live(row.status) && row.orderId.None? && row.providerPaymentId.None?
      && var charge := db.charges[row.session.value];
         charge.user == row.user && charge.amount == Some(row.amount) && row.amount > 0
         && (charge.paid <==> row.status == Paid)
    case WalletRecharge =>
      && row.session.None?
      && (row.providerPaymentId.Some? <==> row.status == Paid || row.status == Refunded)
  }

  ghost predicate RowsSound(db: Db) {
    forall i :: 0 <= i < |db.payments| ==> RowSound(db, db.payments[i])
  }

  // The three partial unique indexes.
  ghost predicate Indexed(payments: seq<Payment>) {
    forall i, j :: 0 <= i < j < |payments| ==>
      && (payments[i].session.Some? ==> payments[i].session != payments[j].session)
      && (payments[i].orderId.Some? ==> payments[i].orderId != payments[j].orderId)
      && (payments[i].providerPaymentId.Some? ==> payments[i].providerPaymentId != payments[j].providerPaymentId)
  }

  predicate ChargeSound(db: Db, s: Id)
    requires s < |db.charges|
  {
    var charge := db.charges[s];
    match charge.amount
    case None => !charge.paid
    case Some(amount) => charge.paid <==> amount == 0 || PaidFor(db.payments, s)
  }

  predicate PaidFor(payments: seq<Payment>, session: Id) {
    var row := FindLive(payments, session);
    row.Some? && payments[row.value].status == Paid
  }

  ghost predicate ChargesSound(db: Db) {
    forall s: Id :: s < |db.charges| ==> ChargeSound(db, s)
  }

  predicate EntrySound(db: Db, e: Entry) {
    && e.payment < |db.payments|
    && var row := db.payments[e.payment];
       e.user == row.user && e.amount == row.amount && e.session == row.session
       && (e.kind == SessionDebit <==> row.purpose == SessionCollection)
       && (e.direction == Credit <==> e.kind == Recharge)
  }

  ghost predicate LedgerSound(db: Db) {
    && (forall i :: 0 <= i < |db.ledger| ==> EntrySound(db, db.ledger[i]))
    && (forall p: Id, kind: EntryKind :: p < |db.payments| ==>
          Sum(db.ledger, Hits(kind, p)) == Due(db.payments[p], kind))
  }

  ghost predicate DbSound(db: Db) {
    && Chained(db.ledger) && WalletsSound(db) && WorthSound(db)
    && RowsSound(db) && Indexed(db.payments) && ChargesSound(db) && LedgerSound(db)
  }

  // A caller's local copies never go stale in the fields it acts on.
  predicate CallerSound(db: Db, c: Caller) {
    match c
    case SettleWallet(s, u, a) => Owes(db, s, u, a)
    case SettleFind(s, u, a) => Owes(db, s, u, a)
    case SettleCreate(s, u, a) => Owes(db, s, u, a)
    case SettleCollect(s, u, a, p, _) => Owes(db, s, u, a) && p < |db.payments| && db.payments[p].session == Some(s)
    case SettleBook(s, p, _) => p < |db.payments| && db.payments[p].session == Some(s)
    case VerifyClaim(p, u, a, _) =>
      p < |db.payments| && db.payments[p].purpose == WalletRecharge && db.payments[p].user == u
        && db.payments[p].amount == a
    case _ => true
  }

  predicate Owes(db: Db, session: Id, user: Id, amount: nat) {
    session < |db.charges| && db.charges[session].user == user && db.charges[session].amount == Some(amount)
      && amount > 0
  }

  ghost predicate CallersSound(db: Db, callers: seq<Caller>) {
    forall i :: 0 <= i < |callers| ==> CallerSound(db, callers[i])
  }

  ghost predicate Sound(sys: System) {
    DbSound(sys.db) && CallersSound(sys.db, sys.callers)
  }

  // What no step takes back.
  ghost predicate Grows(db: Db, db': Db) {
    && |db.charges| <= |db'.charges| && |db.payments| <= |db'.payments| && db.ledger <= db'.ledger
    && (forall s :: 0 <= s < |db.charges| ==>
          && db'.charges[s].user == db.charges[s].user
          && (db.charges[s].amount.Some? ==> db'.charges[s].amount == db.charges[s].amount)
          && (db.charges[s].paid ==> db'.charges[s].paid))
    && (forall p :: 0 <= p < |db.payments| ==>
          && db'.payments[p].user == db.payments[p].user && db'.payments[p].purpose == db.payments[p].purpose
          && db'.payments[p].session == db.payments[p].session && db'.payments[p].amount == db.payments[p].amount)
  }

  lemma CallerStaysSound(db: Db, db': Db, c: Caller)
    requires Grows(db, db') && CallerSound(db, c)
    ensures CallerSound(db', c)
  {
  }

  /* ------------------------------ one transaction ---------------------------- */

  lemma LiveRowIsUnique(db: Db, p: Id)
    requires RowsSound(db) && Indexed(db.payments)
    requires p < |db.payments| && db.payments[p].session.Some?
    ensures FindLive(db.payments, db.payments[p].session.value) == Some(p)
  {
  }

  // The wallet side of a movement: balance, chain and sign agree.
  lemma Movement(db: Db, user: Id, amount: nat, kind: EntryKind, direction: Direction, payment: Id, session: Option<Id>)
    requires Chained(db.ledger) && WalletsSound(db)
    requires ApplyMovement(db, user, amount, kind, direction, payment, session).Some?
    ensures var db' := ApplyMovement(db, user, amount, kind, direction, payment, session).value;
            && |db'.ledger| == |db.ledger| + 1 && db'.ledger[..|db.ledger|] == db.ledger
            && (var e := db'.ledger[|db.ledger|];
               && e.user == user && e.amount == amount && e.kind == kind && e.direction == direction
               && e.payment == payment && e.session == session
               && forall u: Id :: Balance(db', u) == Balance(db, u) + Signed(u)(e))
            && db'.payments == db.payments && db'.charges == db.charges
            && Chained(db'.ledger) && WalletsSound(db')
  {
    var db' := ApplyMovement(db, user, amount, kind, direction, payment, session).value;
    var e := db'.ledger[|db.ledger|];
    assert db'.ledger == db.ledger + [e];
    assert Balance(db, user) >= 0 && Balance(db, user) == LastAfter(db.ledger, user);
    ChainExtends(db.ledger, e);
    forall u: Id
      ensures Balance(db', u) >= 0 && Balance(db', u) == LastAfter(db'.ledger, u)
      ensures Balance(db', u) == Balance(db, u) + Signed(u)(e)
    {
      assert Balance(db, u) >= 0 && Balance(db, u) == LastAfter(db.ledger, u);
      LastAfterAppend(db.ledger, e, u);
    }
  }

  lemma LastAfterAppend(ledger: seq<Entry>, e: Entry, user: Id)
    ensures LastAfter(ledger + [e], user) == if e.user == user then e.after else LastAfter(ledger, user)
  {
  }

  lemma ChainExtends(ledger: seq<Entry>, e: Entry)
    requires Chained(ledger) && e.before == LastAfter(ledger, e.user) && e.after == e.before + Signed(e.user)(e)
    requires e.before >= 0 && e.after >= 0
    ensures Chained(ledger + [e])
  {
    var longer := ledger + [e];
    forall i | 0 <= i < |longer|
      ensures longer[i].before == LastAfter(longer[..i], longer[i].user)
      ensures longer[i].after == longer[i].before + Signed(longer[i].user)(longer[i])
      ensures longer[i].before >= 0 && longer[i].after >= 0
    {
      if i < |ledger| {
        assert longer[..i] == ledger[..i] && longer[i] == ledger[i];
      } else {
        assert longer[..i] == ledger;
      }
    }
  }

  // Who it is from, what it is for and how much never changes.
  predicate SameIdentity(before: Payment, after: Payment) {
    after.user == before.user && after.purpose == before.purpose && after.amount == before.amount
    && after.session == before.session
  }

  // The charge of a row is marked as the row is; every other charge is as it was.
  ghost predicate ChargesMatch(db: Db, db': Db, p: Id)
    requires p < |db.payments| && p < |db'.payments|
  {
    && |db'.charges| == |db.charges|
    && forall s: Id :: s < |db.charges| ==>
         if db.payments[p].session == Some(s)
         then db'.charges[s] == db.charges[s].(paid := db'.payments[p].status == Paid)
         else db'.charges[s] == db.charges[s]
  }

  // The books side: one new ledger row, matched by one payment row's change of status.
  lemma Posting(db: Db, db': Db, p: Id)
    requires WorthSound(db) && LedgerSound(db)
    requires p < |db.payments| == |db'.payments| && |db'.ledger| == |db.ledger| + 1
    requires db'.ledger == db.ledger + [db'.ledger[|db.ledger|]]
    requires db'.payments == db.payments[p := db'.payments[p]]
    requires SameIdentity(db.payments[p], db'.payments[p])
    requires var e := db'.ledger[|db.ledger|];
             && e.payment == p && EntrySound(db', e)
             && (forall kind: EntryKind ::
                   Due(db'.payments[p], kind) == Due(db.payments[p], kind) + if kind == e.kind then 1 else 0)
             && (forall u: Id :: Worth(u)(db'.payments[p]) == Worth(u)(db.payments[p]) + Signed(u)(e))
             && (forall u: Id :: Balance(db', u) == Balance(db, u) + Signed(u)(e))
    ensures WorthSound(db') && LedgerSound(db')
  {
    var e := db'.ledger[|db.ledger|];
    forall u: Id ensures Balance(db', u) == Sum(db'.payments, Worth(u)) {
      assert Balance(db, u) == Sum(db.payments, Worth(u));
      SumUpdate(db.payments, p, db'.payments[p], Worth(u));
    }
    forall i | 0 <= i < |db'.ledger| ensures EntrySound(db', db'.ledger[i]) {
      if i < |db.ledger| {
        assert EntrySound(db, db.ledger[i]);
      }
    }
    forall q: Id, kind: EntryKind | q < |db'.payments|
      ensures Sum(db'.ledger, Hits(kind, q)) == Due(db'.payments[q], kind)
    {
      SumAppend(db.ledger, e, Hits(kind, q));
      assert Sum(db.ledger, Hits(kind, q)) == Due(db.payments[q], kind);
    }
  }

  // A row that changes nothing the books read, or a new row that has moved no money.
  lemma QuietRow(db: Db, db': Db, p: Id)
    requires WorthSound(db) && LedgerSound(db)
    requires db'.ledger == db.ledger && p < |db.payments| == |db'.payments|
    requires db'.payments == db.payments[p := db'.payments[p]]
    requires SameIdentity(db.payments[p], db'.payments[p])
    requires var before, after := db.payments[p], db'.payments[p];
             && (after.status == before.status || (after.status == Failed && before.status == Pending))
    requires forall u: Id :: Balance(db', u) == Balance(db, u)
    ensures WorthSound(db') && LedgerSound(db')
  {
    forall u: Id ensures Balance(db', u) == Sum(db'.payments, Worth(u)) {
      assert Balance(db, u) == Sum(db.payments, Worth(u));
      SumUpdate(db.payments, p, db'.payments[p], Worth(u));
    }
    forall i | 0 <= i < |db'.ledger| ensures EntrySound(db', db'.ledger[i]) {
      assert EntrySound(db, db.ledger[i]);
    }
    forall q: Id, kind: EntryKind | q < |db'.payments|
      ensures Sum(db'.ledger, Hits(kind, q)) == Due(db'.payments[q], kind)
    {
      assert Sum(db.ledger, Hits(kind, q)) == Due(db.payments[q], kind);
    }
  }

  lemma NewRow(db: Db, db': Db, row: Payment)
    requires WorthSound(db) && LedgerSound(db)
    requires db'.ledger == db.ledger && db'.payments == db.payments + [row] && row.status == Pending
    requires forall u: Id :: Balance(db', u) == Balance(db, u)
    ensures WorthSound(db') && LedgerSound(db')
  {
    forall u: Id ensures Balance(db', u) == Sum(db'.payments, Worth(u)) {
      assert Balance(db, u) == Sum(db.payments, Worth(u));
      SumAppend(db.payments, row, Worth(u));
    }
    forall i | 0 <= i < |db'.ledger| ensures EntrySound(db', db'.ledger[i]) {
      assert EntrySound(db, db.ledger[i]);
    }
    forall q: Id, kind: EntryKind | q < |db'.payments|
      ensures Sum(db'.ledger, Hits(kind, q)) == Due(db'.payments[q], kind)
    {
      if q < |db.payments| {
        assert Sum(db.ledger, Hits(kind, q)) == Due(db.payments[q], kind);
      } else {
        forall i | 0 <= i < |db.ledger| ensures Hits(kind, q)(db.ledger[i]) == 0 {
          assert EntrySound(db, db.ledger[i]);
        }
        SumZero(db.ledger, Hits(kind, q));
      }
    }
  }

  /* -------------------------------- every step ------------------------------- */

  lemma OpenWalletSound(db: Db, user: Id)
    requires DbSound(db)
    ensures var db' := db.(wallets := OpenWallet(db.wallets, user)); DbSound(db') && Grows(db, db')
    ensures forall u: Id :: Balance(db.(wallets := OpenWallet(db.wallets, user)), u) == Balance(db, u)
  {
    var db' := db.(wallets := OpenWallet(db.wallets, user));
    WalletSideSound(db, db');
  }

  // A change of the wallet map that keeps every balance.
  lemma WalletSideSound(db: Db, db': Db)
    requires DbSound(db)
    requires db' == db.(wallets := db'.wallets) && forall u: Id :: Balance(db', u) == Balance(db, u)
    ensures DbSound(db') && Grows(db, db')
  {
    assert forall u: Id :: Balance(db, u) >= 0 && Balance(db, u) == LastAfter(db.ledger, u);
    assert forall u: Id :: Balance(db, u) == Sum(db.payments, Worth(u));
    assert forall i :: 0 <= i < |db.payments| ==> RowSound(db, db.payments[i]);
    forall s: Id | s < |db'.charges| ensures ChargeSound(db', s) {
      assert ChargeSound(db, s);
    }
    assert forall i :: 0 <= i < |db.ledger| ==> EntrySound(db, db.ledger[i]);
  }

  lemma SettleCreateSound(db: Db, s: Id, user: Id, amount: nat)
    requires DbSound(db) && Owes(db, s, user, amount)
    ensures var (db', c) := StepSettleCreate(db, s, user, amount);
            DbSound(db') && Grows(db, db') && CallerSound(db', c)
  {
    var (db', c) := StepSettleCreate(db, s, user, amount);
    if FindLive(db.payments, s).None? {
      var row := db'.payments[|db.payments|];
      NewRow(db, db', row);
      NoRowMeansUnpaid(db, s);
      RowAppended(db, db', row);
    }
  }

  lemma NoRowMeansUnpaid(db: Db, s: Id)
    requires DbSound(db) && s < |db.charges| && FindLive(db.payments, s).None?
    ensures db.charges[s].amount.Some? && db.charges[s].amount.value > 0 ==> !db.charges[s].paid
    ensures forall i :: 0 <= i < |db.payments| ==> db.payments[i].session != Some(s)
  {
    assert ChargeSound(db, s);
    forall i | 0 <= i < |db.payments| ensures db.payments[i].session != Some(s) {
      assert RowSound(db, db.payments[i]);
    }
  }

  // Appending a sound pending row keeps rows, indexes and charges sound.
  lemma RowAppended(db: Db, db': Db, row: Payment)
    requires RowsSound(db) && Indexed(db.payments) && ChargesSound(db) && Chained(db.ledger) && WalletsSound(db)
    requires db'.charges == db.charges && db'.payments == db.payments + [row]
    requires row.status == Pending && row.orderId.None? && row.providerPaymentId.None?
    requires RowSound(db, row)
    requires row.session.Some? ==> FindLive(db.payments, row.session.value).None?
    requires db'.ledger == db.ledger && forall u: Id :: Balance(db', u) == Balance(db, u)
    ensures RowsSound(db') && Indexed(db'.payments) && ChargesSound(db') && Chained(db'.ledger) && WalletsSound(db')
    ensures Grows(db, db')
  {
    assert forall u: Id :: Balance(db, u) >= 0 && Balance(db, u) == LastAfter(db.ledger, u);
    forall i | 0 <= i < |db'.payments| ensures RowSound(db', db'.payments[i]) {
      if i < |db.payments| {
        assert RowSound(db, db.payments[i]);
      }
    }
    forall i, j | 0 <= i < j < |db'.payments|
      ensures db'.payments[i].session.Some? ==> db'.payments[i].session != db'.payments[j].session
      ensures db'.payments[i].orderId.Some? ==> db'.payments[i].orderId != db'.payments[j].orderId
      ensures db'.payments[i].providerPaymentId.Some? ==>
                db'.payments[i].providerPaymentId != db'.payments[j].providerPaymentId
    {
      assert RowSound(db, db.payments[i]);
    }
    forall s: Id | s < |db'.charges| ensures ChargeSound(db', s) {
      assert ChargeSound(db, s);
      assert db'.payments[..|db.payments|] == db.payments;
      if row.session == Some(s) {
        assert FindLive(db'.payments, s) == Some(|db.payments|);
      } else {
        assert FindLive(db'.payments, s) == FindLive(db.payments, s);
      }
    }
  }

  // Replacing one row by one with the same identity and liveness, and charges to match.
  lemma RowReplaced(db: Db, db': Db, p: Id)
    requires RowsSound(db) && Indexed(db.payments) && ChargesSound(db)
    requires p < |db.payments| && |db'.payments| == |db.payments| && db'.payments == db.payments[p := db'.payments[p]]
    requires SameIdentity(db.payments[p], db'.payments[p])
    requires var before, after := db.payments[p], db'.payments[p];
             && (after.orderId.Some? && after.orderId != before.orderId ==>
                   FindOrder(db.payments, after.orderId.value).None?)
             && (after.providerPaymentId.Some? && after.providerPaymentId != before.providerPaymentId ==>
                   FindProviderPayment(db.payments, after.providerPaymentId.value).None?)
    requires RowSound(db', db'.payments[p])
    requires ChargesMatch(db, db', p)
    ensures RowsSound(db') && Indexed(db'.payments) && ChargesSound(db')
  {
    forall i | 0 <= i < |db'.payments| ensures RowSound(db', db'.payments[i]) {
      assert RowSound(db, db.payments[i]);
      if i != p && db.payments[i].session.Some? {
        assert db.payments[i].session != db.payments[p].session;
      }
    }
    forall i, j | 0 <= i < j < |db'.payments|
      ensures db'.payments[i].session.Some? ==> db'.payments[i].session != db'.payments[j].session
      ensures db'.payments[i].orderId.Some? ==> db'.payments[i].orderId != db'.payments[j].orderId
      ensures db'.payments[i].providerPaymentId.Some? ==>
                db'.payments[i].providerPaymentId != db'.payments[j].providerPaymentId
    {
    }
    forall s: Id | s < |db'.charges| ensures ChargeSound(db', s) {
      assert ChargeSound(db, s);
      if db.payments[p].session == Some(s) {
        LiveRowIsUnique(db', p);
      } else {
        SameLiveRow(db, db', s, p);
      }
    }
  }

  lemma SameLiveRow(db: Db, db': Db, s: Id, p: Id)
    requires RowsSound(db) && RowsSound(db') && Indexed(db.payments) && Indexed(db'.payments)
    requires p < |db.payments| && |db'.payments| == |db.payments| && db'.payments == db.payments[p := db'.payments[p]]
    requires db.payments[p].session != Some(s) && db'.payments[p].session != Some(s)
    ensures PaidFor(db'.payments, s) == PaidFor(db.payments, s)
  {
    var before, after := FindLive(db.payments, s), FindLive(db'.payments, s);
    if before.Some? {
      assert db'.payments[before.value] == db.payments[before.value];
      LiveRowIsUnique(db', before.value);
    }
  }

  // A status that a movement of each kind goes with.
  predicate Moves(before: Payment, after: Payment, kind: EntryKind, direction: Direction) {
    match kind
    case Refund =>
      before.purpose == WalletRecharge && before.status == Paid && after.status == Refunded && direction == Debit
    case Recharge =>
      before.purpose == WalletRecharge && before.status == Pending && after.status == Paid && direction == Credit
    case SessionDebit =>
      before.purpose == SessionCollection && before.status == Pending && after.status == Paid && direction == Debit
  }

  // One movement, and the row that accounts for it.
  predicate Accounted(db: Db, db': Db, p: Id, kind: EntryKind, direction: Direction) {
    && p < |db.payments| == |db'.payments| && db'.payments == db.payments[p := db'.payments[p]]
    && var row, row' := db.payments[p], db'.payments[p];
       var moved := ApplyMovement(db, row.user, row.amount, kind, direction, p, row.session);
       && SameIdentity(row, row') && Moves(row, row', kind, direction)
       && moved.Some? && db'.wallets == moved.value.wallets && db'.ledger == moved.value.ledger
  }

  lemma MoneyMoves(db: Db, db': Db, p: Id, kind: EntryKind, direction: Direction)
    requires Chained(db.ledger) && WalletsSound(db) && WorthSound(db) && LedgerSound(db)
    requires Accounted(db, db', p, kind, direction) && RowSound(db, db.payments[p])
    ensures Chained(db'.ledger) && WalletsSound(db') && WorthSound(db') && LedgerSound(db') && db.ledger <= db'.ledger
  {
    var row := db.payments[p];
    var moved := ApplyMovement(db, row.user, row.amount, kind, direction, p, row.session).value;
    Movement(db, row.user, row.amount, kind, direction, p, row.session);
    BalancesFollowWallets(moved, db');
    Posting(db, db', p);
    assert db'.ledger[..|db.ledger|] == db.ledger;
  }

  // A committed transaction: one movement, one row's new status, and the charge to match.
  lemma Transaction(db: Db, db': Db, p: Id, kind: EntryKind, direction: Direction)
    requires DbSound(db) && Accounted(db, db', p, kind, direction) && ChargesMatch(db, db', p)
    requires var row, row' := db.payments[p], db'.payments[p];
             && row'.orderId == row.orderId
             && (row'.providerPaymentId == row.providerPaymentId
                 || (row'.providerPaymentId.Some?
                     && FindProviderPayment(db.payments, row'.providerPaymentId.value).None?))
             && RowSound(db', row')
    ensures DbSound(db') && Grows(db, db')
  {
    assert RowSound(db, db.payments[p]);
    MoneyMoves(db, db', p, kind, direction);
    RowReplaced(db, db', p);
    ChargesOnlySettle(db, db', p);
  }

  lemma ChargesOnlySettle(db: Db, db': Db, p: Id)
    requires p < |db.payments| && RowSound(db, db.payments[p]) && |db'.charges| == |db.charges|
    requires |db'.payments| == |db.payments|
    requires db.payments[p].status == Paid && db.payments[p].session.Some? ==> db'.payments[p].status == Paid
    requires ChargesMatch(db, db', p)
    ensures forall s :: 0 <= s < |db.charges| ==>
              db'.charges[s].user == db.charges[s].user && db'.charges[s].amount == db.charges[s].amount
              && (db.charges[s].paid ==> db'.charges[s].paid)
  {
  }

  lemma SettleCollectSound(db: Db, s: Id, user: Id, amount: nat, p: Id, attempts: nat, now: int)
    requires DbSound(db) && CallerSound(db, SettleCollect(s, user, amount, p, attempts))
    ensures var (db', c) := StepSettleCollect(db, s, user, amount, p, attempts, now);
            DbSound(db') && Grows(db, db') && CallerSound(db', c)
  {
    var (db', c) := StepSettleCollect(db, s, user, amount, p, attempts, now);
    if c == SettleDone(Collected) {
      assert RowSound(db, db.payments[p]);
      Transaction(db, db', p, SessionDebit, Debit);
    }
  }

  lemma BalancesFollowWallets(a: Db, b: Db)
    requires a.wallets == b.wallets && a.ledger == b.ledger
    ensures forall u: Id :: Balance(a, u) == Balance(b, u)
    ensures WalletsSound(a) ==> WalletsSound(b)
  {
  }

  lemma SettleBookSound(db: Db, s: Id, p: Id, attempts: nat, now: int)
    requires DbSound(db) && CallerSound(db, SettleBook(s, p, attempts))
    ensures var (db', c) := StepSettleBook(db, p, attempts, now);
            DbSound(db') && Grows(db, db') && CallerSound(db', c)
  {
    var (db', c) := StepSettleBook(db, p, attempts, now);
    assert RowSound(db, db.payments[p]);
    BalancesFollowWallets(db, db');
    QuietRow(db, db', p);
    RowReplaced(db, db', p);
  }

  lemma VerifyClaimSound(db: Db, p: Id, user: Id, amount: nat, reference: string, now: int)
    requires DbSound(db) && CallerSound(db, VerifyClaim(p, user, amount, reference))
    ensures var (db', c) := StepVerifyClaim(db, p, user, amount, reference, now);
            DbSound(db') && Grows(db, db') && CallerSound(db', c)
  {
    var (db', c) := StepVerifyClaim(db, p, user, amount, reference, now);
    if c == VerifyDone(Credited) {
      assert RowSound(db, db.payments[p]);
      Transaction(db, db', p, Recharge, Credit);
    }
  }

  lemma RefundSound(db: Db, p: Id)
    requires DbSound(db)
    ensures DbSound(RefundRecharge(db, p)) && Grows(db, RefundRecharge(db, p))
  {
    var db' := RefundRecharge(db, p);
    if db' != db {
      assert RowSound(db, db.payments[p]);
      Transaction(db, db', p, Refund, Debit);
    }
  }

  lemma CreateOrderSound(db: Db, user: Id, amount: nat)
    requires DbSound(db)
    ensures DbSound(CreateOrder(db, user, amount)) && Grows(db, CreateOrder(db, user, amount))
  {
    var db' := CreateOrder(db, user, amount);
    var ready := db.(wallets := OpenWallet(db.wallets, user));
    OpenWalletSound(db, user);
    if |db'.payments| > |db.payments| {
      var row := db'.payments[|db.payments|];
      BalancesFollowWallets(ready, db');
      NewRow(ready, db', row);
      RowAppended(ready, db', row);
    }
  }

  lemma AnswerOrderSound(db: Db, p: Id, orderId: Option<string>)
    requires DbSound(db)
    ensures DbSound(AnswerOrder(db, p, orderId)) && Grows(db, AnswerOrder(db, p, orderId))
  {
    var db' := AnswerOrder(db, p, orderId);
    if db' != db {
      assert RowSound(db, db.payments[p]);
      BalancesFollowWallets(db, db');
      QuietRow(db, db', p);
      RowReplaced(db, db', p);
    }
  }

  // A charge may be opened, or priced once; neither touches rows, wallets or the ledger.
  lemma ChargeSideSound(db: Db, db': Db)
    requires DbSound(db)
    requires db' == db.(charges := db'.charges) && |db.charges| <= |db'.charges|
    requires forall s :: 0 <= s < |db.charges| ==> db'.charges[s] == db.charges[s] || db.charges[s].amount.None?
    requires forall s :: 0 <= s < |db'.charges| && (s < |db.charges| ==> db'.charges[s] != db.charges[s]) ==>
               && (s < |db.charges| ==> db'.charges[s].user == db.charges[s].user)
               && (db'.charges[s].paid <==> db'.charges[s].amount == Some(0))
    ensures DbSound(db') && Grows(db, db')
  {
    BalancesFollowWallets(db, db');
    assert forall u: Id :: Balance(db, u) == Sum(db.payments, Worth(u));
    forall i | 0 <= i < |db.payments| ensures RowSound(db', db'.payments[i]) {
      assert RowSound(db, db.payments[i]);
    }
    forall s: Id | s < |db'.charges| ensures ChargeSound(db', s) {
      if s < |db.charges| {
        assert ChargeSound(db, s);
      }
      var row := FindLive(db.payments, s);
      if row.Some? {
        assert RowSound(db, db.payments[row.value]);
      }
    }
    forall s | 0 <= s < |db.charges| ensures db.charges[s].paid ==> db'.charges[s].paid {
      assert ChargeSound(db, s);
    }
    assert forall i :: 0 <= i < |db.ledger| ==> EntrySound(db, db.ledger[i]);
  }

  predicate Reads(c: Caller) {
    c.SettleRead? || c.SettleFind? || c.WebhookRead? || c.VerifyRead? || Done(c)
  }

  // A step that only reads keeps what it read, and it is sound.
  lemma ReadStepSound(db: Db, c: Caller, now: int)
    requires DbSound(db) && CallerSound(db, c) && Reads(c)
    ensures StepCaller(db, c, now).0 == db && CallerSound(db, StepCaller(db, c, now).1)
  {
    if c.VerifyRead? {
      var row := FindOrder(db.payments, c.orderId);
      if row.Some? {
        assert RowSound(db, db.payments[row.value]);
      }
    }
  }

  lemma StepCallerSound(db: Db, c: Caller, now: int)
    requires DbSound(db) && CallerSound(db, c)
    ensures var (db', c') := StepCaller(db, c, now);
            DbSound(db') && Grows(db, db') && CallerSound(db', c')
  {
    match c
    case SettleWallet(s, u, a) => OpenWalletSound(db, u);
    case SettleCreate(s, u, a) => SettleCreateSound(db, s, u, a);
    case SettleCollect(s, u, a, p, n) => SettleCollectSound(db, s, u, a, p, n, now);
    case SettleBook(s, p, n) => SettleBookSound(db, s, p, n, now);
    case VerifyClaim(p, u, a, r) => VerifyClaimSound(db, p, u, a, r, now);
    case _ => ReadStepSound(db, c, now);
  }

  // A charge opened, or priced.
  lemma ChargingSound(sys: System, action: Action)
    requires DbSound(sys.db) && (action.OpenCharge? || action.Price?)
    ensures DbSound(Next(sys, action).db) && Grows(sys.db, Next(sys, action).db)
  {
    if action.Price? && action.session < |sys.db.charges| {
      assert ChargeSound(sys.db, action.session);
    }
    ChargeSideSound(sys.db, Next(sys, action).db);
  }

  lemma FreezeSound(sys: System, user: Id, status: WalletStatus)
    requires DbSound(sys.db)
    ensures DbSound(Next(sys, Freeze(user, status)).db) && Grows(sys.db, Next(sys, Freeze(user, status)).db)
  {
    WalletSideSound(sys.db, Next(sys, Freeze(user, status)).db);
  }

  lemma NextDbSound(sys: System, action: Action)
    requires DbSound(sys.db) && !action.Advance?
    ensures DbSound(Next(sys, action).db) && Grows(sys.db, Next(sys, action).db)
  {
    match action
    case OpenCharge(_) => ChargingSound(sys, action);
    case Price(_, _, _) => ChargingSound(sys, action);
    case Order(user, amount) => CreateOrderSound(sys.db, user, amount);
    case OrderAnswered(payment, orderId) => AnswerOrderSound(sys.db, payment, orderId);
    case Reverse(payment) => RefundSound(sys.db, payment);
    case Freeze(user, status) => FreezeSound(sys, user, status);
    case Call(_) =>
  }

  // Whoever is not running keeps sound copies, because nothing they rest on is ever taken back.
  lemma CallersStaySound(db: Db, db': Db, callers: seq<Caller>)
    requires Grows(db, db') && CallersSound(db, callers)
    ensures CallersSound(db', callers)
  {
    forall i | 0 <= i < |callers| ensures CallerSound(db', callers[i]) {
      CallerStaysSound(db, db', callers[i]);
    }
  }

  // One caller takes its step; the others keep their places.
  lemma AdvanceSound(sys: System, i: nat, now: int)
    requires Sound(sys) && i < |sys.callers|
    ensures var (db', c') := StepCaller(sys.db, sys.callers[i], now);
            DbSound(db') && Grows(sys.db, db') && CallersSound(db', sys.callers[i := c'])
  {
    var (db', c') := StepCaller(sys.db, sys.callers[i], now);
    assert CallerSound(sys.db, sys.callers[i]);
    StepCallerSound(sys.db, sys.callers[i], now);
    CallersStaySound(sys.db, db', sys.callers);
  }

  // Any other action, and the callers it finds or adds.
  lemma ActionSound(sys: System, action: Action)
    requires Sound(sys) && !action.Advance?
    ensures Sound(Next(sys, action)) && Grows(sys.db, Next(sys, action).db)
  {
    NextDbSound(sys, action);
    CallersStaySound(sys.db, Next(sys, action).db, sys.callers);
  }

  lemma NextSound(sys: System, action: Action)
    requires Sound(sys)
    ensures Sound(Next(sys, action)) && Grows(sys.db, Next(sys, action).db)
  {
    if !action.Advance? {
      ActionSound(sys, action);
    } else if action.index < |sys.callers| {
      AdvanceSound(sys, action.index, action.now);
    }
  }

  lemma EmptySound()
    ensures Sound(EMPTY)
  {
  }

  // In every run, from nothing, of any number of callers interleaved await by await.
  lemma {:induction false} EveryRunSound(actions: seq<Action>)
    ensures Sound(Run(EMPTY, actions))
  {
    if actions == [] {
      EmptySound();
    } else {
      EveryRunSound(actions[..|actions| - 1]);
      NextSound(Run(EMPTY, actions[..|actions| - 1]), actions[|actions| - 1]);
    }
  }

  lemma {:induction false} ChainSumsToLast(ledger: seq<Entry>, user: Id)
    requires Chained(ledger)
    ensures Sum(ledger, Signed(user)) == LastAfter(ledger, user)
  {
    if ledger != [] {
      var n := |ledger| - 1;
      var front := ledger[..n];
      forall i | 0 <= i < n
        ensures front[i].before == LastAfter(front[..i], front[i].user)
        ensures front[i].after == front[i].before + Signed(front[i].user)(front[i])
        ensures front[i].before >= 0 && front[i].after >= 0
      {
        assert front[i] == ledger[i] && front[..i] == ledger[..i];
      }
      ChainSumsToLast(front, user);
      assert ledger[n].before == LastAfter(ledger[..n], ledger[n].user);
    }
  }

  // What reconcile compares always agrees.
  lemma LedgerReconciles(db: Db, user: Id)
    requires DbSound(db)
    ensures Sum(db.ledger, Signed(user)) == Balance(db, user)
  {
    ChainSumsToLast(db.ledger, user);
    assert Balance(db, user) >= 0 && Balance(db, user) == LastAfter(db.ledger, user);
  }
}
