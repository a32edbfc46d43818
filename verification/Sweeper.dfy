// sweepUnsettledSessions: orphans first, then due retries; nobody waits for ever, and nobody is
// retried too often.

module Sweeper {
  import opened Options
  import opened Sums
  import opened Backoff
  import opened Settlement
  import opened Books
  import opened Settling
  import opened TopUp

  /* -------------------------------- the queries ------------------------------ */

  // An unpaid charge with no payment row at all.
  predicate Orphan(db: Db, s: Id) {
    Collectable(db, s) && forall i :: 0 <= i < |db.payments| ==> db.payments[i].session != Some(s)
  }

  function Orphans(db: Db): set<Id> {
    set s: Id | s < |db.charges| && Orphan(db, s)
  }

  // A pending session debit.
  predicate Waiting(db: Db, p: Id) {
    p < |db.payments| && db.payments[p].purpose == SessionCollection
    && db.payments[p].status == Pending && db.payments[p].session.Some?
  }

  // The pending debits whose next attempt falls no later than an instant; null comes first.
  function DueBy(db: Db, instant: Option<int>): set<Id> {
    set p: Id | p < |db.payments| && Waiting(db, p) && NoLater(db.payments[p].nextAttemptAt, instant)
  }

  function EndOf(db: Db): Id -> Option<int> {
    (s: Id) => if s < |db.charges| then db.charges[s].endedAt else None
  }

  function NextAttemptOf(db: Db): Id -> Option<int> {
    (p: Id) => if p < |db.payments| then db.payments[p].nextAttemptAt else None
  }

  // An answer to "sort these by key and take the first `limit`"; ties come in any order.
  ghost predicate Answers(candidates: set<Id>, key: Id -> Option<int>, limit: nat, ids: seq<Id>) {
    && Distinct(ids)
    && (forall i :: 0 <= i < |ids| ==> ids[i] in candidates)
    && |ids| == (if limit < |candidates| then limit else |candidates|)
    && (forall i, j :: 0 <= i < j < |ids| ==> NoLater(key(ids[i]), key(ids[j])))
    && (forall x, i :: x in candidates && x !in ids && 0 <= i < |ids| ==> NoLater(key(ids[i]), key(x)))
  }

  lemma {:induction false} Earliest(candidates: set<Id>, key: Id -> Option<int>) returns (x: Id)
    requires candidates != {}
    ensures x in candidates && forall y :: y in candidates ==> NoLater(key(x), key(y))
    decreases |candidates|
  {
    x :| x in candidates;
    if candidates != {x} {
      var rest := candidates - {x};
      assert exists y :: y in rest by {
        var y :| y in candidates && y != x;
        assert y in rest;
      }
      var z := Earliest(rest, key);
      if !NoLater(key(x), key(z)) {
        x := z;
      }
    }
  }

  // The queries always have an answer.
  lemma {:induction false} AnswerExists(candidates: set<Id>, key: Id -> Option<int>, limit: nat) returns (ids: seq<Id>)
    ensures Answers(candidates, key, limit, ids)
    decreases limit
  {
    if limit == 0 || candidates == {} {
      ids := [];
    } else {
      var x := Earliest(candidates, key);
      var rest := AnswerExists(candidates - {x}, key, limit - 1);
      ids := [x] + rest;
      forall y, i | y in candidates && y !in ids && 0 <= i < |ids| ensures NoLater(key(ids[i]), key(y)) {
        assert ids[0] == x;
        assert forall k :: 0 <= k < |rest| ==> ids[k + 1] == rest[k];
      }
    }
  }

  /* --------------------------------- one sweep ------------------------------- */

  // One call: the clock it read, what its two queries answered, and the clock at each attempt.
  datatype Call = Call(now: int, orphans: seq<Id>, due: seq<Id>, times: seq<int>)

  function SessionOf(db: Db, p: Id): Id {
    if p < |db.payments| && db.payments[p].session.Some? then db.payments[p].session.value else 0
  }

  function Worklist(db: Db, call: Call): seq<Id> {
    call.orphans + seq(|call.due|, i requires 0 <= i < |call.due| => SessionOf(db, call.due[i]))
  }

  ghost predicate ValidCall(db: Db, limit: nat, call: Call) {
    && Answers(Orphans(db), EndOf(db), limit, call.orphans)
    && Answers(DueBy(db, Some(call.now)), NextAttemptOf(db), limit - |call.orphans|, call.due)
    && |call.times| == |call.orphans| + |call.due|
    && forall i :: 0 <= i < |call.times| ==> call.times[i] >= call.now
  }

  function SettleEach(db: Db, ids: seq<Id>, times: seq<int>): (Db, nat)
    requires |times| == |ids|
    decreases |ids|
  {
    if ids == [] then (db, 0)
    else
      var (db', settled) := SettleSession(db, ids[0], times[0]);
      var (last, n) := SettleEach(db', ids[1..], times[1..]);
      (last, if settled == Collected then n + 1 else n)
  }

  function Sweep(db: Db, call: Call): Db
    requires |call.times| == |call.orphans| + |call.due|
  {
    SettleEach(db, Worklist(db, call), call.times).0
  }

  // The live row of a charge, with its contents.
  function RowState(db: Db, s: Id): Option<(Id, Payment)> {
    var row := FindLive(db.payments, s);
    if row.None? then None else Some((row.value, db.payments[row.value]))
  }

  predicate Untouched(db: Db, db': Db, s: Id) {
    RowState(db', s) == RowState(db, s) && s < |db.charges| == |db'.charges| && db'.charges[s] == db.charges[s]
  }

  // An attempt that acted: the charge is paid, or its row counts one more attempt and waits out
  // the delay that goes with the new count.
  predicate AttemptedAt(db: Db, db': Db, s: Id, now: int) {
    var row := FindLive(db'.payments, s);
    && row.Some? && s < |db'.charges|
    && (FindLive(db.payments, s).Some? ==> row == FindLive(db.payments, s))
    && var r := db'.payments[row.value];
       if db'.charges[s].paid then r.status == Paid
       else r.status == Pending && r.attempts == AttemptsSoFar(db, s) + 1
            && r.nextAttemptAt == Some(now + RetryDelayMs(r.attempts))
  }

  lemma OneAttempt(db: Db, s: Id, now: int)
    requires DbSound(db) && Collectable(db, s)
    ensures var (db', settled) := SettleSession(db, s, now);
            && DbSound(db') && settled != Skipped && AttemptedAt(db, db', s, now)
            && |db'.charges| == |db.charges| && |db'.payments| >= |db.payments|
            && forall q: Id :: q != s && q < |db.charges| ==> Untouched(db, db', q)
  {
    SettleAlone(db, s, now);
    var (db', settled) := SettleSession(db, s, now);
    var p := RowFor(db, s);
    LiveRowIsUnique(db', p);
    forall q: Id | q != s && q < |db.charges| ensures Untouched(db, db', q) {
      SameRowElsewhere(db, db', p, s, q);
    }
  }

  lemma SameRowElsewhere(db: Db, db': Db, p: Id, s: Id, q: Id)
    requires RowsSound(db) && Indexed(db.payments) && RowsSound(db') && Indexed(db'.payments)
    requires q != s && p < |db'.payments| && db'.payments[p].session == Some(s)
    requires |db'.payments| == (if p < |db.payments| then |db.payments| else p + 1) && p <= |db.payments|
    requires p < |db.payments| ==> db.payments[p].session == Some(s)
    requires forall i :: 0 <= i < |db.payments| && i != p ==> db'.payments[i] == db.payments[i]
    ensures RowState(db', q) == RowState(db, q)
  {
    var before := FindLive(db.payments, q);
    if before.Some? {
      assert db'.payments[before.value] == db.payments[before.value];
      LiveRowIsUnique(db', before.value);
    } else {
      forall i | 0 <= i < |db'.payments| ensures db'.payments[i].session != Some(q) || !Live(db'.payments[i].status) {
        if i != p {
          assert db.payments[i] == db'.payments[i];
        }
      }
    }
  }

  // All that a list of attempts does: every listed charge is attempted, every other is untouched.
  ghost predicate Worked(db: Db, db': Db, ids: seq<Id>, times: seq<int>)
    requires |times| == |ids|
  {
    && |db'.charges| == |db.charges| && |db'.payments| >= |db.payments|
    && (forall i :: 0 <= i < |ids| ==> AttemptedAt(db, db', ids[i], times[i]))
    && (forall q: Id :: q < |db.charges| && q !in ids ==> Untouched(db, db', q))
  }

  lemma WorkedCons(db: Db, db1: Db, db': Db, ids: seq<Id>, times: seq<int>)
    requires ids != [] && |times| == |ids| && Distinct(ids) && ids[0] < |db.charges|
    requires |db1.charges| == |db.charges| && |db1.payments| >= |db.payments|
    requires AttemptedAt(db, db1, ids[0], times[0])
    requires forall q: Id :: q != ids[0] && q < |db.charges| ==> Untouched(db, db1, q)
    requires forall i :: 0 <= i < |ids| ==> ids[i] < |db.charges|
    requires Worked(db1, db', ids[1..], times[1..])
    ensures Worked(db, db', ids, times)
  {
    var s, rest := ids[0], ids[1..];
    forall i | 0 <= i < |ids| ensures AttemptedAt(db, db', ids[i], times[i]) {
      if i == 0 {
        assert s !in rest && Untouched(db1, db', s);
      } else {
        assert rest[i - 1] == ids[i] && AttemptedAt(db1, db', rest[i - 1], times[1..][i - 1]);
        assert Untouched(db, db1, ids[i]);
      }
    }
    forall q: Id | q < |db.charges| && q !in ids ensures Untouched(db, db', q) {
      assert q != s && q !in rest;
      assert Untouched(db, db1, q) && Untouched(db1, db', q);
    }
  }

  lemma {:induction false} EachAttempted(db: Db, ids: seq<Id>, times: seq<int>)
    requires DbSound(db) && |times| == |ids| && Distinct(ids)
    requires forall i :: 0 <= i < |ids| ==> Collectable(db, ids[i])
    ensures var db' := SettleEach(db, ids, times).0;
            DbSound(db') && Worked(db, db', ids, times)
    decreases |ids|
  {
    if ids != [] {
      var s, rest := ids[0], ids[1..];
      var (db1, _) := SettleSession(db, s, times[0]);
      assert Collectable(db, s);
      OneAttempt(db, s, times[0]);
      forall i | 0 <= i < |rest| ensures Collectable(db1, rest[i]) {
        assert rest[i] == ids[i + 1] && Collectable(db, ids[i + 1]);
        assert Untouched(db, db1, ids[i + 1]);
      }
      EachAttempted(db1, rest, times[1..]);
      WorkedCons(db, db1, SettleEach(db1, rest, times[1..]).0, ids, times);
    }
  }

  function PaidAmong(db: Db, ids: seq<Id>): set<Id> {
    set s | s in ids && s < |db.charges| && db.charges[s].paid
  }

  // What a sweep counts is the charges it collected: those on its list that are paid when it ends.
  lemma {:induction false} CountsWhatItCollected(db: Db, ids: seq<Id>, times: seq<int>)
    requires DbSound(db) && |times| == |ids| && Distinct(ids)
    requires forall i :: 0 <= i < |ids| ==> Collectable(db, ids[i])
    ensures var (db', n) := SettleEach(db, ids, times); n == |PaidAmong(db', ids)|
    decreases |ids|
  {
    if ids != [] {
      var s, rest := ids[0], ids[1..];
      var (db1, settled) := SettleSession(db, s, times[0]);
      assert Collectable(db, s);
      OneAttempt(db, s, times[0]);
      SettleAlone(db, s, times[0]);
      forall i | 0 <= i < |rest| ensures Collectable(db1, rest[i]) {
        assert rest[i] == ids[i + 1] && Collectable(db, ids[i + 1]);
        assert Untouched(db, db1, ids[i + 1]);
      }
      CountsWhatItCollected(db1, rest, times[1..]);
      EachAttempted(db1, rest, times[1..]);
      HeadIsCounted(db1, SettleEach(db1, rest, times[1..]).0, ids, times);
    }
  }

  lemma HeadIsCounted(db1: Db, db': Db, ids: seq<Id>, times: seq<int>)
    requires ids != [] && |times| == |ids| && Distinct(ids) && ids[0] < |db1.charges|
    requires Worked(db1, db', ids[1..], times[1..])
    ensures |PaidAmong(db', ids)| == |PaidAmong(db', ids[1..])| + if db1.charges[ids[0]].paid then 1 else 0
  {
    assert ids[0] !in ids[1..] && Untouched(db1, db', ids[0]);
    assert PaidAmong(db', ids) == PaidAmong(db', ids[1..]) + if db1.charges[ids[0]].paid then {ids[0]} else {};
  }

  // Orphans are taken by the end of their charge, earliest first; retries by the time they became due.
  lemma EarliestFirst(db: Db, limit: nat, call: Call)
    requires ValidCall(db, limit, call)
    ensures forall s: Id, i :: Orphan(db, s) && s !in call.orphans && 0 <= i < |call.orphans| ==>
              call.orphans[i] < |db.charges| && NoLater(db.charges[call.orphans[i]].endedAt, db.charges[s].endedAt)
    ensures forall p: Id, i ::
              Waiting(db, p) && NoLater(db.payments[p].nextAttemptAt, Some(call.now)) && p !in call.due
              && 0 <= i < |call.due| ==>
              call.due[i] < |db.payments|
              && NoLater(db.payments[call.due[i]].nextAttemptAt, db.payments[p].nextAttemptAt)
  {
    forall s: Id, i | Orphan(db, s) && s !in call.orphans && 0 <= i < |call.orphans|
      ensures call.orphans[i] < |db.charges| && NoLater(db.charges[call.orphans[i]].endedAt, db.charges[s].endedAt)
    {
      assert s in Orphans(db) && call.orphans[i] in Orphans(db);
      assert NoLater(EndOf(db)(call.orphans[i]), EndOf(db)(s));
    }
    forall p: Id, i | Waiting(db, p) && NoLater(db.payments[p].nextAttemptAt, Some(call.now)) && p !in call.due
                      && 0 <= i < |call.due|
      ensures call.due[i] < |db.payments|
              && NoLater(db.payments[call.due[i]].nextAttemptAt, db.payments[p].nextAttemptAt)
    {
      assert p in DueBy(db, Some(call.now)) && call.due[i] in DueBy(db, Some(call.now));
      assert NoLater(NextAttemptOf(db)(call.due[i]), NextAttemptOf(db)(p));
    }
  }

  /* ---------------------------------- fairness ------------------------------- */

  // Orphans and waiting rows, seen through the live row of a charge.
  lemma OrphanMeansNoRow(db: Db, s: Id)
    requires DbSound(db)
    ensures Orphan(db, s) <==> Collectable(db, s) && FindLive(db.payments, s).None?
  {
  }

  lemma WaitingMeansLiveRow(db: Db, p: Id)
    requires DbSound(db) && Waiting(db, p)
    ensures FindLive(db.payments, SessionOf(db, p)) == Some(p) && Collectable(db, SessionOf(db, p))
  {
  }

  // The sweep's worklist names each charge once, and every one of them can be collected: this is
  // where exactly-once settlement is needed, for a row left pending on a paid charge would be
  // skipped for ever.
  lemma WorklistIsWorkable(db: Db, limit: nat, call: Call)
    requires DbSound(db) && ValidCall(db, limit, call)
    ensures Distinct(Worklist(db, call))
    ensures forall i :: 0 <= i < |Worklist(db, call)| ==> Collectable(db, Worklist(db, call)[i])
  {
    var work := Worklist(db, call);
    var n := |call.orphans|;
    forall i | 0 <= i < |work|
      ensures Collectable(db, work[i])
      ensures i < n ==> FindLive(db.payments, work[i]).None?
      ensures i >= n ==> FindLive(db.payments, work[i]) == Some(call.due[i - n])
    {
      if i < n {
        assert call.orphans[i] in Orphans(db);
        OrphanMeansNoRow(db, work[i]);
      } else {
        assert call.due[i - n] in DueBy(db, Some(call.now));
        WaitingMeansLiveRow(db, call.due[i - n]);
      }
    }
  }

  lemma SweepWorks(db: Db, limit: nat, call: Call)
    requires DbSound(db) && ValidCall(db, limit, call)
    ensures DbSound(Sweep(db, call)) && Worked(db, Sweep(db, call), Worklist(db, call), call.times)
  {
    WorklistIsWorkable(db, limit, call);
    EachAttempted(db, Worklist(db, call), call.times);
  }

  function Members(ids: seq<Id>): set<Id> {
    set x | x in ids
  }

  lemma {:induction false} DistinctSize(ids: seq<Id>)
    requires Distinct(ids)
    ensures |Members(ids)| == |ids|
  {
    if ids != [] {
      var n := |ids| - 1;
      var front, last := ids[..n], ids[n];
      assert forall i :: 0 <= i < n ==> front[i] == ids[i] && ids[i] != last;
      DistinctSize(front);
      assert ids == front + [last];
      assert Members(ids) == Members(front) + {last};
    }
  }

  lemma DistinctCount(ids: seq<Id>, whole: set<Id>)
    requires Distinct(ids) && forall i :: 0 <= i < |ids| ==> ids[i] in whole
    ensures |whole - Members(ids)| == |whole| - |ids|
  {
    DistinctSize(ids);
    assert Members(ids) <= whole;
    assert whole == (whole - Members(ids)) + Members(ids);
  }

  // An orphan that was attempted has a row from then on; one that was not is an orphan still.
  lemma OrphanAfterWork(db: Db, db': Db, call: Call, work: seq<Id>, s: Id)
    requires work == Worklist(db, call) && |call.times| == |work| && Worked(db, db', work, call.times)
    requires s < |db.charges| && (s in call.orphans ==> Orphan(db, s))
    requires Orphan(db, s) <==> Collectable(db, s) && FindLive(db.payments, s).None?
    requires Orphan(db', s) <==> Collectable(db', s) && FindLive(db'.payments, s).None?
    requires forall i :: |call.orphans| <= i < |work| ==> FindLive(db.payments, work[i]).Some?
    ensures Orphan(db', s) <==> Orphan(db, s) && s !in call.orphans
  {
    if s in work {
      var i :| 0 <= i < |work| && work[i] == s;
      assert AttemptedAt(db, db', work[i], call.times[i]);
      assert i < |call.orphans| ==> call.orphans[i] == s;
    } else {
      assert forall i :: 0 <= i < |call.orphans| ==> work[i] == call.orphans[i];
      assert Untouched(db, db', s);
    }
  }

  // Every sweep takes as many orphans as it may, and none comes back.
  lemma OrphansDrop(db: Db, limit: nat, call: Call)
    requires DbSound(db) && ValidCall(db, limit, call)
    ensures Orphans(Sweep(db, call)) == Orphans(db) - Members(call.orphans)
    ensures |Orphans(Sweep(db, call))|
            == |Orphans(db)| - if limit < |Orphans(db)| then limit else |Orphans(db)|
  {
    var db', work := Sweep(db, call), Worklist(db, call);
    SweepWorks(db, limit, call);
    forall i | |call.orphans| <= i < |work| ensures FindLive(db.payments, work[i]).Some? {
      WorkFromDue(db, limit, call, i);
    }
    forall s: Id | s < |db.charges| ensures Orphan(db', s) <==> Orphan(db, s) && s !in call.orphans {
      OrphanMeansNoRow(db, s);
      OrphanMeansNoRow(db', s);
      assert s in call.orphans ==> s in Orphans(db);
      OrphanAfterWork(db, db', call, work, s);
    }
    assert Orphans(db') == Orphans(db) - Members(call.orphans);
    DistinctCount(call.orphans, Orphans(db));
  }

  lemma WorkFromDue(db: Db, limit: nat, call: Call, i: nat)
    requires DbSound(db) && ValidCall(db, limit, call)
    requires |call.orphans| <= i < |Worklist(db, call)|
    ensures FindLive(db.payments, Worklist(db, call)[i]) == Some(call.due[i - |call.orphans|])
  {
  }

  // After an attempt a row is paid, or waits past every instant up to the sweep's own.
  lemma QueueOnlyShrinks(db: Db, limit: nat, call: Call, instant: Option<int>)
    requires DbSound(db) && ValidCall(db, limit, call) && NoLater(instant, Some(call.now))
    ensures DueBy(Sweep(db, call), instant) <= DueBy(db, instant) - Members(call.due)
  {
    var db', work := Sweep(db, call), Worklist(db, call);
    SweepWorks(db, limit, call);
    forall p | Waiting(db', p) ensures WaitsAlone(db', p) {
      WaitingMeansLiveRow(db', p);
    }
    QueueAfterWork(db, db', call, work, instant);
  }

  predicate WaitsAlone(db: Db, p: Id) {
    SessionOf(db, p) < |db.charges| && FindLive(db.payments, SessionOf(db, p)) == Some(p)
      && Collectable(db, SessionOf(db, p))
  }

  lemma QueueAfterWork(db: Db, db': Db, call: Call, work: seq<Id>, instant: Option<int>)
    requires work == Worklist(db, call) && |call.times| == |work| && Worked(db, db', work, call.times)
    requires NoLater(instant, Some(call.now)) && forall i :: 0 <= i < |call.times| ==> call.times[i] >= call.now
    requires forall p: Id :: Waiting(db', p) ==> WaitsAlone(db', p)
    ensures DueBy(db', instant) <= DueBy(db, instant) - Members(call.due)
  {
    forall p | p in DueBy(db', instant) ensures p in DueBy(db, instant) && p !in call.due {
      assert Waiting(db', p) && WaitsAlone(db', p);
      var s := SessionOf(db', p);
      forall i | 0 <= i < |work| ensures work[i] != s {
        assert AttemptedAt(db, db', work[i], call.times[i]);
      }
      assert Untouched(db, db', s);
      forall j | 0 <= j < |call.due| ensures call.due[j] != p {
        assert work[|call.orphans| + j] == SessionOf(db, call.due[j]);
      }
    }
  }

  // One sweep of a run: the database it found and what it did.
  datatype Round = Round(before: Db, call: Call)

  function After(round: Round): Db
    requires |round.call.times| == |round.call.orphans| + |round.call.due|
  {
    Sweep(round.before, round.call)
  }

  // Between two sweeps anything may happen that brings no new orphan, puts nothing ahead of the
  // target in the queue, and leaves the target itself alone.
  ghost predicate Quiet(db: Db, db': Db, target: Id, due: Option<int>) {
    && Orphans(db') <= Orphans(db) && DueBy(db', due) <= DueBy(db, due)
    && target < |db.payments| <= |db'.payments| && db'.payments[target] == db.payments[target]
  }

  // Sweeps one after another, from an instant at which the target is already due.
  ghost predicate Rounds(rounds: seq<Round>, limit: nat, target: Id, due: Option<int>) {
    && (forall k :: 0 <= k < |rounds| ==>
          DbSound(rounds[k].before) && ValidCall(rounds[k].before, limit, rounds[k].call)
          && NoLater(due, Some(rounds[k].call.now)))
    && (forall j, k :: 0 <= j < k < |rounds| && k == j + 1 ==> Quiet(After(rounds[j]), rounds[k].before, target, due))
  }

  // How many come no later than the target: the orphans, and the rows due no later than it,
  // itself and ties included.
  function InFront(db: Db, due: Option<int>): nat {
    |Orphans(db)| + |DueBy(db, due)|
  }

  predicate StillDue(db: Db, target: Id, due: Option<int>) {
    Waiting(db, target) && db.payments[target].nextAttemptAt == due
  }

  // A sweep that does not reach the target moves it `limit` places forward.
  lemma PassedOver(db: Db, limit: nat, call: Call, target: Id, due: Option<int>)
    requires DbSound(db) && ValidCall(db, limit, call) && NoLater(due, Some(call.now))
    requires StillDue(db, target, due) && target !in call.due
    ensures var db' := Sweep(db, call);
            StillDue(db', target, due) && 1 <= InFront(db', due) <= InFront(db, due) - limit
  {
    OrphansDrop(db, limit, call);
    QueueOnlyShrinks(db, limit, call, due);
    TargetUntouched(db, limit, call, target);
    LineShrinks(db, Sweep(db, call), limit, call, target, due);
  }

  lemma LineShrinks(db: Db, db': Db, limit: nat, call: Call, target: Id, due: Option<int>)
    requires ValidCall(db, limit, call) && NoLater(due, Some(call.now))
    requires StillDue(db, target, due) && StillDue(db', target, due) && target !in call.due
    requires |Orphans(db')| == |Orphans(db)| - if limit < |Orphans(db)| then limit else |Orphans(db)|
    requires DueBy(db', due) <= DueBy(db, due) - Members(call.due)
    ensures 1 <= InFront(db', due) <= InFront(db, due) - limit
  {
    BatchIsFull(db, limit, call, target);
    PickedComeFirst(db, limit, call, target, due);
    QueueLosesBatch(DueBy(db, due), DueBy(db', due), call.due);
    assert |DueBy(db', due)| >= 1 by {
      assert target in DueBy(db', due);
    }
  }

  lemma QueueLosesBatch(queue: set<Id>, queue': set<Id>, batch: seq<Id>)
    requires Distinct(batch) && (forall i :: 0 <= i < |batch| ==> batch[i] in queue) && queue' <= queue - Members(batch)
    ensures |queue'| <= |queue| - |batch|
  {
    DistinctCount(batch, queue);
    FewerOf(queue', queue - Members(batch));
  }

  // A due row is left over only when the batch is full.
  lemma BatchIsFull(db: Db, limit: nat, call: Call, target: Id)
    requires ValidCall(db, limit, call) && target in DueBy(db, Some(call.now)) && target !in call.due
    ensures |call.orphans| + |call.due| == limit
  {
    assert target in DueBy(db, Some(call.now)) - Members(call.due);
    DistinctCount(call.due, DueBy(db, Some(call.now)));
  }

  lemma PickedComeFirst(db: Db, limit: nat, call: Call, target: Id, due: Option<int>)
    requires ValidCall(db, limit, call) && NoLater(due, Some(call.now))
    requires StillDue(db, target, due) && target !in call.due
    ensures forall i :: 0 <= i < |call.due| ==> call.due[i] in DueBy(db, due)
  {
  }

  lemma FewerOf(a: set<Id>, b: set<Id>)
    requires a <= b
    ensures |a| <= |b|
  {
    assert b == a + (b - a);
  }

  // A row the sweep did not pick keeps its contents.
  lemma TargetUntouched(db: Db, limit: nat, call: Call, target: Id)
    requires DbSound(db) && ValidCall(db, limit, call)
    requires target < |db.payments| && db.payments[target].purpose == SessionCollection && target !in call.due
    ensures var db' := Sweep(db, call);
            target < |db'.payments| && db'.payments[target] == db.payments[target]
  {
    var db', work := Sweep(db, call), Worklist(db, call);
    var s := SessionOf(db, target);
    SweepWorks(db, limit, call);
    assert RowSound(db, db.payments[target]);
    LiveRowIsUnique(db, target);
    forall i | 0 <= i < |work| ensures work[i] != s {
      if i < |call.orphans| {
        assert call.orphans[i] in Orphans(db);
        OrphanMeansNoRow(db, work[i]);
      } else {
        WorkFromDue(db, limit, call, i);
      }
    }
    assert Untouched(db, db', s);
  }

  // The target stays in the queue, and each sweep that passes it over brings it `limit` nearer.
  lemma {:induction false} MovesUp(rounds: seq<Round>, limit: nat, target: Id, due: Option<int>, k: nat)
    requires Rounds(rounds, limit, target, due) && k < |rounds|
    requires StillDue(rounds[0].before, target, due)
    requires forall j :: 0 <= j < k ==> target !in rounds[j].call.due
    ensures StillDue(rounds[k].before, target, due)
    ensures InFront(rounds[k].before, due) + k * limit <= InFront(rounds[0].before, due)
  {
    if k > 0 {
      MovesUp(rounds, limit, target, due, k - 1);
      var before := rounds[k - 1];
      PassedOver(before.before, limit, before.call, target, due);
      assert Quiet(After(rounds[k - 1]), rounds[k].before, target, due);
      FewerOf(Orphans(rounds[k].before), Orphans(After(before)));
      FewerOf(DueBy(rounds[k].before, due), DueBy(After(before), due));
      assert (k - 1) * limit + limit == k * limit;
    }
  }

  lemma DueIsAttempted(db: Db, limit: nat, call: Call, i: nat)
    requires DbSound(db) && ValidCall(db, limit, call) && i < |call.due|
    ensures AttemptedAt(db, Sweep(db, call), SessionOf(db, call.due[i]), call.times[|call.orphans| + i])
  {
    SweepWorks(db, limit, call);
    assert Worklist(db, call)[|call.orphans| + i] == SessionOf(db, call.due[i]);
  }

  lemma SomeSweepReaches(rounds: seq<Round>, limit: nat, target: Id, due: Option<int>) returns (k: nat, i: nat)
    requires Rounds(rounds, limit, target, due) && rounds != []
    requires StillDue(rounds[0].before, target, due)
    requires |rounds| * limit >= InFront(rounds[0].before, due)
    ensures k < |rounds| && i < |rounds[k].call.due| && rounds[k].call.due[i] == target
  {
    if forall k :: 0 <= k < |rounds| ==> target !in rounds[k].call.due {
      var n := |rounds| - 1;
      assert n * limit + limit == |rounds| * limit;
      MovesUp(rounds, limit, target, due, n);
      PassedOver(rounds[n].before, limit, rounds[n].call, target, due);
      assert false;
    }
    k :| 0 <= k < |rounds| && target in rounds[k].call.due;
    i :| 0 <= i < |rounds[k].call.due| && rounds[k].call.due[i] == target;
  }

  // A due payment is attempted, and the attempt acts, within as many sweeps as it takes to clear
  // everything in front of it `limit` at a time.
  lemma NobodyStarves(rounds: seq<Round>, limit: nat, target: Id, due: Option<int>) returns (k: nat, i: nat)
    requires Rounds(rounds, limit, target, due) && rounds != []
    requires StillDue(rounds[0].before, target, due)
    requires |rounds| * limit >= InFront(rounds[0].before, due)
    ensures k < |rounds| && i < |rounds[k].call.due| && rounds[k].call.due[i] == target
    ensures AttemptedAt(rounds[k].before, After(rounds[k]), SessionOf(rounds[k].before, target),
                        rounds[k].call.times[|rounds[k].call.orphans| + i])
  {
    k, i := SomeSweepReaches(rounds, limit, target, due);
    DueIsAttempted(rounds[k].before, limit, rounds[k].call, i);
  }

  // `sweeps` calls are enough exactly when that many full batches cover the line.
  lemma EnoughSweeps(line: nat, limit: nat)
    requires limit > 0
    ensures ((line + limit - 1) / limit) * limit >= line
    ensures line > 0 ==> ((line + limit - 1) / limit - 1) * limit < line
  {
    var q := (line + limit - 1) / limit;
    assert q * limit + (line + limit - 1) % limit == line + limit - 1;
    assert (q - 1) * limit == q * limit - limit;
  }

  /* ---------------------------------- retries -------------------------------- */

  function IndexOf(ids: seq<Id>, x: Id): (i: nat)
    requires x in ids
    ensures i < |ids| && ids[i] == x
  {
    if ids[0] == x then 0 else 1 + IndexOf(ids[1..], x)
  }

  predicate Timed(call: Call) {
    |call.times| == |call.orphans| + |call.due|
  }

  // When this sweep tried the row and failed, if it did.
  function FailedAt(round: Round, p: Id): Option<int>
    requires Timed(round.call)
  {
    if p in round.call.due && p < |After(round).payments| && After(round).payments[p].status == Pending
    then Some(round.call.times[|round.call.orphans| + IndexOf(round.call.due, p)])
    else None
  }

  // The instants of the failed attempts in the first n sweeps, in order.
  function Failures(rounds: seq<Round>, p: Id, n: nat): seq<int>
    requires n <= |rounds| && forall k :: 0 <= k < |rounds| ==> Timed(rounds[k].call)
  {
    if n == 0 then [] else Logged(Failures(rounds, p, n - 1), FailedAt(rounds[n - 1], p))
  }

  function Logged(log: seq<int>, failed: Option<int>): seq<int> {
    if failed.Some? then log + [failed.value] else log
  }

  ghost predicate Sweeping(round: Round, limit: nat, p: Id) {
    && DbSound(round.before) && ValidCall(round.before, limit, round.call)
    && p < |round.before.payments| && round.before.payments[p].purpose == SessionCollection
  }

  // Sweeps one after another, between which nobody else touches this debit row.
  ghost predicate OnlySwept(rounds: seq<Round>, limit: nat, p: Id) {
    && (forall k :: 0 <= k < |rounds| ==> Sweeping(rounds[k], limit, p))
    && (forall j, k :: 0 <= j < k < |rounds| && k == j + 1 ==>
          p < |After(rounds[j]).payments| && rounds[k].before.payments[p] == After(rounds[j]).payments[p])
  }

  // The row remembers its failures, which are spaced: how many, and when the last one lets it be
  // tried again.
  ghost predicate Remembers(row: Payment, log: seq<int>, start: nat) {
    && Spaced(log, start + 1)
    && (row.status == Pending ==>
          row.attempts == start + |log|
          && (log != [] ==> row.nextAttemptAt == Some(log[|log| - 1] + RetryDelayMs(start + |log|))))
  }

  // What a sweep did to a row: nothing; or a due attempt, which paid it or counted one more failure.
  predicate SweptRow(row: Payment, row': Payment, failed: Option<int>) {
    || (row' == row && failed.None?)
    || (row'.status != Pending && failed.None?)
    || (row.status == Pending && row'.status == Pending && failed.Some? && NoLater(row.nextAttemptAt, failed)
        && row'.attempts == row.attempts + 1 && row'.nextAttemptAt == Some(failed.value + RetryDelayMs(row'.attempts)))
  }

  lemma LogGrows(row: Payment, row': Payment, failed: Option<int>, log: seq<int>, start: nat)
    requires Remembers(row, log, start) && SweptRow(row, row', failed)
    ensures Remembers(row', Logged(log, failed), start)
  {
  }

  lemma OneSweep(round: Round, limit: nat, p: Id)
    requires Sweeping(round, limit, p)
    ensures p < |After(round).payments|
    ensures SweptRow(round.before.payments[p], After(round).payments[p], FailedAt(round, p))
  {
    if p in round.call.due {
      RetriedRow(round.before, limit, round.call, p);
    } else {
      TargetUntouched(round.before, limit, round.call, p);
    }
  }

  lemma RetriedRow(db: Db, limit: nat, call: Call, p: Id)
    requires DbSound(db) && ValidCall(db, limit, call) && p in call.due
    ensures p < |db.payments| && p < |Sweep(db, call).payments|
    ensures SweptRow(db.payments[p], Sweep(db, call).payments[p], FailedAt(Round(db, call), p))
  {
    assert p in DueBy(db, Some(call.now));
    WaitingMeansLiveRow(db, p);
    SweepWorks(db, limit, call);
    RowAfterSweep(db, call, p);
  }

  lemma RowAfterSweep(db: Db, call: Call, p: Id)
    requires Timed(call) && p in call.due && |call.times| == |Worklist(db, call)|
    requires Worked(db, Sweep(db, call), Worklist(db, call), call.times)
    requires forall i :: 0 <= i < |call.times| ==> call.times[i] >= call.now
    requires Waiting(db, p) && WaitsAlone(db, p) && NoLater(db.payments[p].nextAttemptAt, Some(call.now))
    ensures p < |db.payments| && p < |Sweep(db, call).payments|
    ensures SweptRow(db.payments[p], Sweep(db, call).payments[p], FailedAt(Round(db, call), p))
  {
    RowAfterWork(db, Sweep(db, call), call, p);
  }

  lemma RowAfterWork(db: Db, db': Db, call: Call, p: Id)
    requires Timed(call) && p in call.due && Worked(db, db', Worklist(db, call), call.times)
    requires forall i :: 0 <= i < |call.times| ==> call.times[i] >= call.now
    requires Waiting(db, p) && WaitsAlone(db, p) && NoLater(db.payments[p].nextAttemptAt, Some(call.now))
    ensures p < |db'.payments|
    ensures var t := call.times[|call.orphans| + IndexOf(call.due, p)];
            SweptRow(db.payments[p], db'.payments[p], if db'.payments[p].status == Pending then Some(t) else None)
  {
  }

  // The row's own history across the sweeps, all that the back-off depends on.
  ghost predicate RowHistory(rounds: seq<Round>, p: Id) {
    && (forall k :: 0 <= k < |rounds| ==>
          && Timed(rounds[k].call) && p < |rounds[k].before.payments| && p < |After(rounds[k]).payments|
          && SweptRow(rounds[k].before.payments[p], After(rounds[k]).payments[p], FailedAt(rounds[k], p)))
    && (forall j, k :: 0 <= j < k < |rounds| && k == j + 1 ==>
          rounds[k].before.payments[p] == After(rounds[j]).payments[p])
  }

  lemma SweepsMakeHistory(rounds: seq<Round>, limit: nat, p: Id)
    requires OnlySwept(rounds, limit, p)
    ensures RowHistory(rounds, p)
  {
    forall k | 0 <= k < |rounds|
      ensures Timed(rounds[k].call) && p < |rounds[k].before.payments| && p < |After(rounds[k]).payments|
      ensures SweptRow(rounds[k].before.payments[p], After(rounds[k]).payments[p], FailedAt(rounds[k], p))
    {
      OneSweep(rounds[k], limit, p);
    }
  }

  lemma {:induction false} HistoryRemembers(rounds: seq<Round>, p: Id, k: nat)
    requires RowHistory(rounds, p) && k < |rounds|
    ensures Remembers(After(rounds[k]).payments[p], Failures(rounds, p, k + 1), rounds[0].before.payments[p].attempts)
  {
    if k > 0 {
      HistoryRemembers(rounds, p, k - 1);
      assert rounds[k].before.payments[p] == After(rounds[k - 1]).payments[p];
    }
    LogGrows(rounds[k].before.payments[p], After(rounds[k]).payments[p], FailedAt(rounds[k], p),
             Failures(rounds, p, k), rounds[0].before.payments[p].attempts);
  }

  lemma HistoryIsRare(rounds: seq<Round>, p: Id, i: nat, j: nat, window: nat)
    requires RowHistory(rounds, p) && rounds != []
    requires var log := Failures(rounds, p, |rounds|); i <= j < |log| && log[j] - log[i] <= window
    ensures j - i + 1 <= 11 + window / RETRY_MAX_MS
  {
    HistoryRemembers(rounds, p, |rounds| - 1);
    AttemptsInWindow(Failures(rounds, p, |rounds|), rounds[0].before.payments[p].attempts + 1, i, j, window);
  }

  // When only the sweeper tries a payment, no window of time holds more than eleven failed
  // attempts and one for each six hours of its length.
  lemma RetriesAreRare(rounds: seq<Round>, limit: nat, p: Id, i: nat, j: nat, window: nat)
    requires OnlySwept(rounds, limit, p) && rounds != []
    requires var log := Failures(rounds, p, |rounds|); i <= j < |log| && log[j] - log[i] <= window
    ensures j - i + 1 <= 11 + window / RETRY_MAX_MS
  {
    SweepsMakeHistory(rounds, limit, p);
    HistoryIsRare(rounds, p, i, j, window);
  }
}
