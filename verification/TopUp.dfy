// settleOutstandingForUser and assessArrears: what a top-up collects, and whether the driver may
// charge again.

module TopUp {
  import opened Options
  import opened Sums
  import opened Settlement
  import opened Books
  import opened Settling

  // Ascending order of an optional instant, as the database sorts it: null first.
  predicate NoLater(a: Option<int>, b: Option<int>) {
    a.None? || (b.Some? && a.value <= b.value)
  }

  // An answer to "this user's unpaid charges, earliest end first"; ties come in any order.
  ghost predicate UnpaidOf(db: Db, user: Id, ids: seq<Id>) {
    && (forall i :: 0 <= i < |ids| ==> Collectable(db, ids[i]) && db.charges[ids[i]].user == user)
    && (forall s: Id :: Collectable(db, s) && db.charges[s].user == user ==> s in ids)
    && Distinct(ids)
    && (forall i, j :: 0 <= i < j < |ids| ==> NoLater(db.charges[ids[i]].endedAt, db.charges[ids[j]].endedAt))
  }

  // Settle in order and stop at the first shortfall; the count is of charges collected.
  function SettleOutstanding(db: Db, ids: seq<Id>, times: seq<int>): (Db, nat)
    requires |times| == |ids|
    decreases |ids|
  {
    if ids == [] then (db, 0)
    else
      var (db', settled) := SettleSession(db, ids[0], times[0]);
      if settled == Deferred then (db', 0)
      else
        var (last, n) := SettleOutstanding(db', ids[1..], times[1..]);
        (last, if settled == Collected then n + 1 else n)
  }

  function AmountDue(db: Db, s: Id): nat {
    if s < |db.charges| && db.charges[s].amount.Some? then db.charges[s].amount.value else 0
  }

  function Debt(db: Db, ids: seq<Id>): nat {
    if ids == [] then 0 else AmountDue(db, ids[0]) + Debt(db, ids[1..])
  }

  lemma {:induction false} DebtDependsOnAmounts(db: Db, db': Db, ids: seq<Id>)
    requires forall i :: 0 <= i < |ids| ==> AmountDue(db, ids[i]) == AmountDue(db', ids[i])
    ensures Debt(db, ids) == Debt(db', ids)
  {
    if ids != [] {
      assert forall i :: 0 <= i < |ids[1..]| ==> ids[1..][i] == ids[i + 1];
      DebtDependsOnAmounts(db, db', ids[1..]);
    }
  }

  lemma {:induction false} LongerPrefixOwesMore(db: Db, ids: seq<Id>, m: nat, n: nat)
    requires m <= n <= |ids|
    ensures Debt(db, ids[..m]) <= Debt(db, ids[..n])
  {
    if m > 0 {
      assert ids[..m][1..] == ids[1..][..m - 1] && ids[..n][1..] == ids[1..][..n - 1];
      LongerPrefixOwesMore(db, ids[1..], m - 1, n - 1);
    }
  }

  ghost predicate OwedBy(db: Db, user: Id, ids: seq<Id>) {
    Distinct(ids) && forall i :: 0 <= i < |ids| ==> Collectable(db, ids[i]) && db.charges[ids[i]].user == user
  }

  predicate ActiveWallet(db: Db, user: Id) {
    user in db.wallets && db.wallets[user].status == Active
  }

  // What the loop does to a list of one active user's collectable charges, whatever their order:
  // the longest prefix that fits is paid, in full, and nothing else.
  ghost predicate PaidPrefix(db: Db, db': Db, user: Id, ids: seq<Id>, n: nat) {
    && n <= |ids|
    && Debt(db, ids[..n]) <= Balance(db, user)
    && (n < |ids| ==> Debt(db, ids[..n + 1]) > Balance(db, user))
    && ChargesPaid(db, db', ids, n)
    && |db'.ledger| == |db.ledger| + n && (n == 0 ==> db'.ledger == db.ledger)
    && (forall u: Id :: Balance(db', u) == Balance(db, u) - if u == user then Debt(db, ids[..n]) else 0)
    && ActiveWallet(db', user)
  }

  ghost predicate ChargesPaid(db: Db, db': Db, ids: seq<Id>, n: nat) {
    && |db'.charges| == |db.charges|
    && (forall i :: 0 <= i < |ids| && ids[i] < |db.charges| ==>
          db'.charges[ids[i]] == if i < n then db.charges[ids[i]].(paid := true) else db.charges[ids[i]])
    && (forall s: Id :: s < |db.charges| && s !in ids ==> db'.charges[s] == db.charges[s])
  }

  lemma {:induction false} PaysLongestPrefix(db: Db, user: Id, ids: seq<Id>, times: seq<int>)
    requires DbSound(db) && OwedBy(db, user, ids) && |times| == |ids| && ActiveWallet(db, user)
    ensures var (db', n) := SettleOutstanding(db, ids, times);
            DbSound(db') && PaidPrefix(db, db', user, ids, n)
    decreases |ids|
  {
    if ids == [] {
      assert Debt(db, ids[..0]) == 0;
    } else {
      SettleHead(db, user, ids, times[0]);
      if SettleSession(db, ids[0], times[0]).1 == Collected {
        PaysLongestPrefix(SettleSession(db, ids[0], times[0]).0, user, ids[1..], times[1..]);
        PaidOneMore(db, user, ids, times);
      }
    }
  }

  lemma PaidOneMore(db: Db, user: Id, ids: seq<Id>, times: seq<int>)
    requires ids != [] && |times| == |ids| && OwedBy(db, user, ids)
    requires var (db1, settled) := SettleSession(db, ids[0], times[0]);
             settled == Collected && HeadPaid(db, db1, user, ids, times[0])
    requires var db1 := SettleSession(db, ids[0], times[0]).0;
             var (db', n) := SettleOutstanding(db1, ids[1..], times[1..]);
             PaidPrefix(db1, db', user, ids[1..], n)
    ensures var (db', n) := SettleOutstanding(db, ids, times); PaidPrefix(db, db', user, ids, n)
  {
    var db1 := SettleSession(db, ids[0], times[0]).0;
    var (db', n) := SettleOutstanding(db1, ids[1..], times[1..]);
    PaidHead(db, db1, db', user, ids, times[0], n);
  }

  // The first charge is paid, and the rest are owed as before.
  ghost predicate HeadPaid(db: Db, db1: Db, user: Id, ids: seq<Id>, now: int)
    requires ids != []
  {
    && Collectable(db, ids[0]) && db.charges[ids[0]].user == user && Attempt(db, db1, ids[0], now, Collected)
    && OwedBy(db1, user, ids[1..]) && ActiveWallet(db1, user)
  }

  // Either that; or it does not fit, and nothing is paid.
  lemma SettleHead(db: Db, user: Id, ids: seq<Id>, now: int)
    requires DbSound(db) && OwedBy(db, user, ids) && ids != [] && ActiveWallet(db, user)
    ensures var (db1, settled) := SettleSession(db, ids[0], now);
            && DbSound(db1) && settled != Skipped
            && if settled == Collected then HeadPaid(db, db1, user, ids, now) else PaidPrefix(db, db1, user, ids, 0)
  {
    var (db1, settled) := SettleSession(db, ids[0], now);
    assert Collectable(db, ids[0]);
    SettleAlone(db, ids[0], now);
    if settled == Deferred {
      assert Balance(db, user) >= 0;
      ShortOnHead(db, db1, user, ids, now);
    } else {
      RestStillOwed(db, db1, user, ids);
    }
  }

  lemma RestStillOwed(db: Db, db1: Db, user: Id, ids: seq<Id>)
    requires ids != [] && OwedBy(db, user, ids)
    requires db1.charges == db.charges[ids[0] := db.charges[ids[0]].(paid := true)]
    ensures OwedBy(db1, user, ids[1..])
  {
  }

  lemma ShortOnHead(db: Db, db1: Db, user: Id, ids: seq<Id>, now: int)
    requires ids != [] && OwedBy(db, user, ids) && Collectable(db, ids[0]) && db.charges[ids[0]].user == user
    requires ActiveWallet(db, user) && Balance(db, user) >= 0
    requires Attempt(db, db1, ids[0], now, Deferred)
    ensures PaidPrefix(db, db1, user, ids, 0)
  {
  }

  lemma PaidHead(db: Db, db1: Db, db': Db, user: Id, ids: seq<Id>, now: int, n: nat)
    requires ids != [] && OwedBy(db, user, ids) && HeadPaid(db, db1, user, ids, now)
    requires PaidPrefix(db1, db', user, ids[1..], n)
    ensures PaidPrefix(db, db', user, ids, n + 1)
  {
    assert forall i :: 0 <= i < |ids| ==> AmountDue(db, ids[i]) == AmountDue(db1, ids[i]);
    PrefixGrowsByHead(db, db1, ids, n);
    ChargesAfterHead(db, db1, db', ids, n);
  }

  lemma PrefixGrowsByHead(db: Db, db1: Db, ids: seq<Id>, n: nat)
    requires ids != [] && n <= |ids| - 1
    requires forall i :: 0 <= i < |ids| ==> AmountDue(db, ids[i]) == AmountDue(db1, ids[i])
    ensures Debt(db, ids[..n + 1]) == AmountDue(db, ids[0]) + Debt(db1, ids[1..][..n])
    ensures n < |ids| - 1 ==> Debt(db, ids[..n + 2]) == AmountDue(db, ids[0]) + Debt(db1, ids[1..][..n + 1])
  {
    assert forall k :: 0 <= k < |ids| - 1 ==> ids[1..][k] == ids[k + 1];
    assert ids[..n + 1][1..] == ids[1..][..n];
    DebtDependsOnAmounts(db, db1, ids[1..][..n]);
    if n < |ids| - 1 {
      assert ids[..n + 2][1..] == ids[1..][..n + 1];
      DebtDependsOnAmounts(db, db1, ids[1..][..n + 1]);
    }
  }

  lemma ChargesAfterHead(db: Db, db1: Db, db': Db, ids: seq<Id>, n: nat)
    requires ids != [] && Distinct(ids) && ids[0] < |db.charges|
    requires db1.charges == db.charges[ids[0] := db.charges[ids[0]].(paid := true)]
    requires ChargesPaid(db1, db', ids[1..], n)
    ensures ChargesPaid(db, db', ids, n + 1)
  {
    var rest := ids[1..];
    forall i | 0 <= i < |ids| && ids[i] < |db.charges|
      ensures db'.charges[ids[i]] == if i < n + 1 then db.charges[ids[i]].(paid := true) else db.charges[ids[i]]
    {
      if i == 0 {
        assert ids[0] !in rest;
      } else {
        assert rest[i - 1] == ids[i];
      }
    }
    forall s: Id | s < |db.charges| && s !in ids ensures db'.charges[s] == db.charges[s] {
      assert s !in rest;
    }
  }

  // A charge that somebody settled since the list was read is passed by, and not counted.
  lemma PassesByWhatIsSettled(db: Db, ids: seq<Id>, times: seq<int>)
    requires DbSound(db) && ids != [] && |times| == |ids| && !Collectable(db, ids[0])
    ensures SettleOutstanding(db, ids, times) == SettleOutstanding(db, ids[1..], times[1..])
  {
    SettleAlone(db, ids[0], times[0]);
  }

  // The top-up run, alone on an active wallet, pays exactly the longest oldest-first prefix whose
  // running sum fits, returns its length, and leaves the balance less that sum.
  lemma TopUpPaysLongestPrefix(db: Db, user: Id, ids: seq<Id>, times: seq<int>)
    requires DbSound(db) && UnpaidOf(db, user, ids) && |times| == |ids|
    requires ActiveWallet(db, user)
    ensures var (db', n) := SettleOutstanding(db, ids, times);
            && n <= |ids| && Debt(db, ids[..n]) <= Balance(db, user)
            && (forall k :: n < k <= |ids| ==> Debt(db, ids[..k]) > Balance(db, user))
            && Balance(db', user) == Balance(db, user) - Debt(db, ids[..n])
            && |db'.charges| == |db.charges|
            && (forall s: Id :: s < |db.charges| ==>
                  db'.charges[s] == if s in ids[..n] then db.charges[s].(paid := true) else db.charges[s])
  {
    PaysLongestPrefix(db, user, ids, times);
    var (db', n) := SettleOutstanding(db, ids, times);
    PrefixIsLongest(db, db', user, ids, n);
  }

  lemma PrefixIsLongest(db: Db, db': Db, user: Id, ids: seq<Id>, n: nat)
    requires PaidPrefix(db, db', user, ids, n)
    ensures forall k :: n < k <= |ids| ==> Debt(db, ids[..k]) > Balance(db, user)
    ensures forall s: Id :: s < |db.charges| ==>
              db'.charges[s] == if s in ids[..n] then db.charges[s].(paid := true) else db.charges[s]
  {
    forall k | n < k <= |ids| ensures Debt(db, ids[..k]) > Balance(db, user) {
      LongerPrefixOwesMore(db, ids, n + 1, k);
    }
    forall s: Id | s < |db.charges|
      ensures db'.charges[s] == if s in ids[..n] then db.charges[s].(paid := true) else db.charges[s]
    {
      if s in ids {
        var i :| 0 <= i < |ids| && ids[i] == s;
        assert i < n ==> ids[..n][i] == s;
      }
    }
  }

  predicate Tied(db: Db, s: Id, t: Id) {
    s < |db.charges| && t < |db.charges| && db.charges[s].endedAt == db.charges[t].endedAt
  }

  // Nothing that ended at the same instant as the first charge left over could be paid from what is left.
  predicate TiesUnaffordable(db: Db, ids: seq<Id>, n: nat, left: int) {
    forall k :: n < k < |ids| && Tied(db, ids[n], ids[k]) ==> AmountDue(db, ids[k]) > left
  }

  lemma NothingMore(db: Db, db1: Db, db2: Db, user: Id, ids: seq<Id>, n: nat, again: seq<Id>, m: nat)
    requires UnpaidOf(db, user, ids) && PaidPrefix(db, db1, user, ids, n)
             && TiesUnaffordable(db, ids, n, Balance(db1, user))
    requires UnpaidOf(db1, user, again) && PaidPrefix(db1, db2, user, again, m)
    ensures m == 0 && db2.ledger == db1.ledger && db2.charges == db1.charges
    ensures forall u: Id :: Balance(db2, u) == Balance(db1, u)
  {
    if again != [] {
      var k := HeadIsTied(db, db1, user, ids, n, again);
      PrefixSplit(db, ids, n);
    }
    NothingPaid(db1, db2, user, again, m);
  }

  // A second run straight after moves no money, whatever order the query gives it; unless a charge that
  // tied with the first one left over was affordable all along.
  lemma SecondRunMovesNothing(db: Db, user: Id, ids: seq<Id>, times: seq<int>, again: seq<Id>, times': seq<int>)
    requires DbSound(db) && UnpaidOf(db, user, ids) && |times| == |ids| && ActiveWallet(db, user)
    requires var (db1, n) := SettleOutstanding(db, ids, times);
             TiesUnaffordable(db, ids, n, Balance(db1, user)) && UnpaidOf(db1, user, again) && |times'| == |again|
    ensures var db1 := SettleOutstanding(db, ids, times).0;
            var (db2, n) := SettleOutstanding(db1, again, times');
            n == 0 && db2.ledger == db1.ledger && db2.charges == db1.charges
            && forall u: Id :: Balance(db2, u) == Balance(db1, u)
  {
    PaysLongestPrefix(db, user, ids, times);
    var (db1, n) := SettleOutstanding(db, ids, times);
    PaysLongestPrefix(db1, user, again, times');
    var (db2, m) := SettleOutstanding(db1, again, times');
    NothingMore(db, db1, db2, user, ids, n, again, m);
  }

  // And if one was, some order of the query pays it: so a second run is sure to move nothing exactly
  // when no such charge was affordable.
  lemma SecondRunMovesNothingExactlyWhen(db: Db, user: Id, ids: seq<Id>, times: seq<int>)
    requires DbSound(db) && UnpaidOf(db, user, ids) && |times| == |ids| && ActiveWallet(db, user)
    ensures var (db1, n) := SettleOutstanding(db, ids, times);
            TiesUnaffordable(db, ids, n, Balance(db1, user))
            <==> forall again: seq<Id>, times': seq<int> :: UnpaidOf(db1, user, again) && |times'| == |again| ==>
                   SettleOutstanding(db1, again, times').1 == 0
  {
    var (db1, n) := SettleOutstanding(db, ids, times);
    if TiesUnaffordable(db, ids, n, Balance(db1, user)) {
      forall again: seq<Id>, times': seq<int> | UnpaidOf(db1, user, again) && |times'| == |again|
        ensures SettleOutstanding(db1, again, times').1 == 0
      {
        SecondRunMovesNothing(db, user, ids, times, again, times');
      }
    } else {
      var again, times' := AffordableTieIsPaid(db, user, ids, times);
      assert UnpaidOf(db1, user, again) && SettleOutstanding(db1, again, times').1 > 0;
    }
  }

  lemma AffordableTieIsPaid(db: Db, user: Id, ids: seq<Id>, times: seq<int>) returns (again: seq<Id>, times': seq<int>)
    requires DbSound(db) && UnpaidOf(db, user, ids) && |times| == |ids| && ActiveWallet(db, user)
    requires var (db1, n) := SettleOutstanding(db, ids, times); !TiesUnaffordable(db, ids, n, Balance(db1, user))
    ensures var db1 := SettleOutstanding(db, ids, times).0;
            UnpaidOf(db1, user, again) && |times'| == |again| && SettleOutstanding(db1, again, times').1 > 0
  {
    var (db1, n) := SettleOutstanding(db, ids, times);
    var k :| n < k < |ids| && Tied(db, ids[n], ids[k]) && AmountDue(db, ids[k]) <= Balance(db1, user);
    PaysLongestPrefix(db, user, ids, times);
    again := TakenFirst(ids, n, k);
    TiedOneFirst(db, db1, user, ids, n, k);
    times' := seq(|again|, _ => 0);
    PaysLongestPrefix(db1, user, again, times');
    HeadOwed(db1, again);
  }

  // What is left from the n-th on, with the k-th in front.
  function TakenFirst(ids: seq<Id>, n: nat, k: nat): (again: seq<Id>)
    requires n < k < |ids|
    ensures |again| == |ids| - n && again[0] == ids[k]
    ensures forall i :: 0 <= i < |again| ==> again[i] == ids[Shifted(n, k, i)]
    ensures forall j :: n <= j < |ids| ==> ids[j] in again
  {
    var again := [ids[k]] + ids[n..k] + ids[k + 1..];
    assert forall j :: n <= j < |ids| ==> again[if j == k then 0 else if j < k then j - n + 1 else j - n] == ids[j];
    again
  }

  // Where the i-th of the reordered charges was listed.
  function Shifted(n: nat, k: nat, i: nat): (j: nat)
    requires n < k
    ensures j >= n && (i > 0 ==> j != k)
  {
    if i == 0 then k else if i <= k - n then n + i - 1 else n + i
  }

  lemma InOrder(db: Db, ids: seq<Id>, n: nat, k: nat, i: nat, j: nat)
    requires n < k < |ids| && i < j < |ids| - n && Distinct(ids) && Tied(db, ids[n], ids[k])
    requires forall a :: 0 <= a < |ids| ==> ids[a] < |db.charges|
    requires forall a, b :: 0 <= a < b < |ids| ==> NoLater(db.charges[ids[a]].endedAt, db.charges[ids[b]].endedAt)
    ensures var a, b := Shifted(n, k, i), Shifted(n, k, j);
            ids[a] != ids[b] && NoLater(db.charges[ids[a]].endedAt, db.charges[ids[b]].endedAt)
  {
  }

  // What is left over, with one that tied for first place taken first, is an answer too.
  lemma TiedOneFirst(db: Db, db1: Db, user: Id, ids: seq<Id>, n: nat, k: nat)
    requires UnpaidOf(db, user, ids) && PaidPrefix(db, db1, user, ids, n) && n < k < |ids| && Tied(db, ids[n], ids[k])
    ensures UnpaidOf(db1, user, TakenFirst(ids, n, k)) && AmountDue(db1, ids[k]) == AmountDue(db, ids[k])
  {
    var again := TakenFirst(ids, n, k);
    LeftOver(db, db1, user, ids, n);
    forall i | 0 <= i < |ids| ensures ids[i] < |db.charges| {
      assert Collectable(db, ids[i]);
    }
    forall i, j | 0 <= i < j < |again|
      ensures again[i] != again[j] && NoLater(db1.charges[again[i]].endedAt, db1.charges[again[j]].endedAt)
    {
      InOrder(db, ids, n, k, i, j);
      assert again[i] == ids[Shifted(n, k, i)] && again[j] == ids[Shifted(n, k, j)];
    }
  }

  // The charges from the n-th on are what is still owed, and as they were.
  lemma LeftOver(db: Db, db1: Db, user: Id, ids: seq<Id>, n: nat)
    requires UnpaidOf(db, user, ids) && PaidPrefix(db, db1, user, ids, n)
    ensures forall j :: n <= j < |ids| ==>
              Collectable(db1, ids[j]) && db1.charges[ids[j]] == db.charges[ids[j]] && db.charges[ids[j]].user == user
    ensures forall s: Id :: Collectable(db1, s) && db1.charges[s].user == user ==>
              exists j :: n <= j < |ids| && ids[j] == s
  {
    forall j | n <= j < |ids|
      ensures Collectable(db1, ids[j]) && db1.charges[ids[j]] == db.charges[ids[j]] && db.charges[ids[j]].user == user
    {
      assert Collectable(db, ids[j]);
    }
    forall s: Id | Collectable(db1, s) && db1.charges[s].user == user
      ensures exists j :: n <= j < |ids| && ids[j] == s
    {
      if s !in ids {
        assert db1.charges[s] == db.charges[s] && Collectable(db, s);
      }
      var j :| 0 <= j < |ids| && ids[j] == s;
    }
  }

  lemma NothingPaid(db1: Db, db2: Db, user: Id, again: seq<Id>, m: nat)
    requires PaidPrefix(db1, db2, user, again, m)
    requires again != [] ==> AmountDue(db1, again[0]) > Balance(db1, user)
    ensures m == 0 && db2.ledger == db1.ledger && db2.charges == db1.charges
    ensures forall u: Id :: Balance(db2, u) == Balance(db1, u)
  {
  }

  lemma HeadOwed(db: Db, ids: seq<Id>)
    requires ids != []
    ensures Debt(db, ids[..1]) == AmountDue(db, ids[0])
  {
  }

  lemma {:induction false} PrefixSplit(db: Db, ids: seq<Id>, n: nat)
    requires n < |ids|
    ensures Debt(db, ids[..n + 1]) == Debt(db, ids[..n]) + AmountDue(db, ids[n])
  {
    if n == 0 {
      HeadOwed(db, ids);
    } else {
      assert ids[..n + 1][1..] == ids[1..][..n] && ids[..n][1..] == ids[1..][..n - 1];
      PrefixSplit(db, ids[1..], n - 1);
    }
  }

  // The next query starts with the charge the first run stopped at, or one that tied with it.
  lemma HeadIsTied(db: Db, db1: Db, user: Id, ids: seq<Id>, n: nat, again: seq<Id>) returns (k: nat)
    requires UnpaidOf(db, user, ids) && PaidPrefix(db, db1, user, ids, n)
    requires UnpaidOf(db1, user, again) && again != []
    ensures n <= k < |ids| && again[0] == ids[k] && Tied(db, ids[n], ids[k])
    ensures AmountDue(db1, again[0]) == AmountDue(db, ids[k])
  {
    LeftOver(db, db1, user, ids, n);
    assert Collectable(db1, again[0]);
    k :| n <= k < |ids| && ids[k] == again[0];
    assert ids[n] in again;
    var m :| 0 <= m < |again| && again[m] == ids[n];
  }

  /* --------------------------------- arrears --------------------------------- */

  const ARREARS_MAX_OUTSTANDING_PAISE := 20_000
  const ARREARS_MAX_UNPAID_SESSIONS := 3
  const ARREARS_GRACE_MS := 900_000

  datatype Arrears = Arrears(outstanding: int, unpaid: int, blocked: bool)

  predicate Overdue(charge: Charge, user: Id, cutoff: int) {
    charge.user == user && !charge.paid && charge.amount.Some? && charge.amount.value > 0
    && charge.endedAt.Some? && charge.endedAt.value < cutoff
  }

  function OverdueAmount(user: Id, cutoff: int): Charge -> int {
    (c: Charge) => if Overdue(c, user, cutoff) then c.amount.value else 0
  }

  function OverdueCount(user: Id, cutoff: int): Charge -> int {
    (c: Charge) => if Overdue(c, user, cutoff) then 1 else 0
  }

  function AssessArrears(db: Db, user: Id, now: int): Arrears {
    var outstanding := Sum(db.charges, OverdueAmount(user, now - ARREARS_GRACE_MS));
    var unpaid := Sum(db.charges, OverdueCount(user, now - ARREARS_GRACE_MS));
    Arrears(outstanding, unpaid,
            outstanding > ARREARS_MAX_OUTSTANDING_PAISE || unpaid > ARREARS_MAX_UNPAID_SESSIONS)
  }

  // A top-up that covers the whole debt clears the way to charge again, at once and for good.
  lemma CoveredDebtUnblocks(db: Db, user: Id, ids: seq<Id>, times: seq<int>, later: int)
    requires DbSound(db) && UnpaidOf(db, user, ids) && |times| == |ids|
    requires ActiveWallet(db, user)
    requires Debt(db, ids) <= Balance(db, user)
    ensures var (db', n) := SettleOutstanding(db, ids, times);
            n == |ids| && AssessArrears(db', user, later) == Arrears(0, 0, false)
  {
    PaysLongestPrefix(db, user, ids, times);
    var (db', n) := SettleOutstanding(db, ids, times);
    NoArrearsLeft(db, db', user, ids, n, later);
  }

  lemma NoArrearsLeft(db: Db, db': Db, user: Id, ids: seq<Id>, n: nat, later: int)
    requires UnpaidOf(db, user, ids) && PaidPrefix(db, db', user, ids, n) && Debt(db, ids) <= Balance(db, user)
    ensures n == |ids| && AssessArrears(db', user, later) == Arrears(0, 0, false)
  {
    assert ids[..|ids|] == ids;
    if n < |ids| {
      LongerPrefixOwesMore(db, ids, n + 1, |ids|);
    }
    NothingOverdue(db, db', user, ids, later - ARREARS_GRACE_MS);
    SumZero(db'.charges, OverdueAmount(user, later - ARREARS_GRACE_MS));
    SumZero(db'.charges, OverdueCount(user, later - ARREARS_GRACE_MS));
  }

  lemma NothingOverdue(db: Db, db': Db, user: Id, ids: seq<Id>, cutoff: int)
    requires UnpaidOf(db, user, ids) && ChargesPaid(db, db', ids, |ids|)
    ensures forall i :: 0 <= i < |db'.charges| ==> !Overdue(db'.charges[i], user, cutoff)
  {
  }

  // The debts that have aged: the driver's collectable charges that ended more than fifteen minutes ago.
  function Aged(db: Db, user: Id, now: int): set<Id> {
    set s: Id | s < |db.charges| && Collectable(db, s) && db.charges[s].user == user
                && db.charges[s].endedAt.Some? && db.charges[s].endedAt.value + 900_000 < now
  }

  function Below(ids: set<Id>, n: nat): set<Id> {
    set s | s in ids && s < n
  }

  // What a set of the first n charges comes to.
  function Owing(db: Db, ids: set<Id>, n: nat): nat {
    if n == 0 then 0 else Owing(db, ids, n - 1) + if n - 1 in ids then AmountDue(db, n - 1) else 0
  }

  lemma BelowNext(ids: set<Id>, n: nat)
    ensures |Below(ids, n + 1)| == |Below(ids, n)| + if n in ids then 1 else 0
  {
    if n in ids {
      assert Below(ids, n + 1) == Below(ids, n) + {n};
    } else {
      assert Below(ids, n + 1) == Below(ids, n);
    }
  }

  lemma {:induction false} OverdueAddsUp(db: Db, user: Id, now: int, n: nat)
    requires n <= |db.charges|
    ensures Sum(db.charges[..n], OverdueAmount(user, now - ARREARS_GRACE_MS)) == Owing(db, Aged(db, user, now), n)
    ensures Sum(db.charges[..n], OverdueCount(user, now - ARREARS_GRACE_MS)) == |Below(Aged(db, user, now), n)|
  {
    if n == 0 {
      assert Below(Aged(db, user, now), 0) == {};
    } else {
      OverdueAddsUp(db, user, now, n - 1);
      BelowNext(Aged(db, user, now), n - 1);
      assert db.charges[..n][..n - 1] == db.charges[..n - 1] && db.charges[..n][n - 1] == db.charges[n - 1];
      assert n - 1 in Aged(db, user, now) <==> Overdue(db.charges[n - 1], user, now - ARREARS_GRACE_MS);
    }
  }

  // A driver is blocked exactly when more than three aged debts are open, or they come to more than 200 rupees;
  // and is told how many and how much.
  lemma BlockedExactlyWhen(db: Db, user: Id, now: int)
    ensures var aged := Aged(db, user, now);
            var arrears := AssessArrears(db, user, now);
            && arrears.outstanding == Owing(db, aged, |db.charges|) && arrears.unpaid == |aged|
            && (arrears.blocked <==> |aged| > 3 || Owing(db, aged, |db.charges|) > 20_000)
  {
    OverdueAddsUp(db, user, now, |db.charges|);
    assert db.charges[..|db.charges|] == db.charges;
    assert Below(Aged(db, user, now), |db.charges|) == Aged(db, user, now);
  }

  // So one aged debt of more than that blocks by itself.
  lemma OneLargeDebtBlocks(db: Db, user: Id, now: int, s: Id)
    requires s in Aged(db, user, now) && AmountDue(db, s) > 20_000
    ensures AssessArrears(db, user, now).blocked
  {
    BlockedExactlyWhen(db, user, now);
    OwingAtLeast(db, Aged(db, user, now), |db.charges|, s);
  }

  lemma {:induction false} OwingAtLeast(db: Db, ids: set<Id>, n: nat, s: Id)
    requires s in ids && s < n
    ensures Owing(db, ids, n) >= AmountDue(db, s)
  {
    if s < n - 1 {
      OwingAtLeast(db, ids, n - 1, s);
    }
  }

  // A driver is blocked only over debt that some charge older than the grace period accounts for.
  lemma BlockedOnlyByAgedDebt(db: Db, user: Id, now: int)
    requires AssessArrears(db, user, now).blocked
    ensures exists s: Id :: s < |db.charges| && Collectable(db, s) && db.charges[s].user == user
                            && db.charges[s].endedAt.Some? && db.charges[s].endedAt.value + ARREARS_GRACE_MS < now
  {
    if forall s: Id :: s < |db.charges| ==> !Overdue(db.charges[s], user, now - ARREARS_GRACE_MS) {
      SumZero(db.charges, OverdueAmount(user, now - ARREARS_GRACE_MS));
      SumZero(db.charges, OverdueCount(user, now - ARREARS_GRACE_MS));
    }
    var s: Id :| s < |db.charges| && Overdue(db.charges[s], user, now - ARREARS_GRACE_MS);
    assert Collectable(db, s);
  }
}
