// What the sweep's order costs the retries. Orphans are taken first, so a batch that new orphans fill tries no
// retry at all; and as long as they keep filling it, a due payment waits.

module Crowding {
  import opened Options
  import opened Backoff
  import opened Settlement
  import opened Books
  import opened Settling
  import opened TopUp
  import opened Contention
  import Sw = Sweeper
  import Uninterrupted

  const SETTLEMENT_SWEEP_INTERVAL_MS := 15_000

  // A sweep tries no retry exactly when orphans fill its batch, or none is due; otherwise it tries as many as
  // the orphans leave room for.
  lemma RetriesWaitExactlyWhen(pass: Pass, limit: nat)
    requires ValidPass(pass, limit)
    ensures var orphans, due := |Sw.Orphans(pass.found.db)|, |Sw.DueBy(Mid(pass).db, Some(pass.now))|;
            && (pass.due == [] <==> orphans >= limit || due == 0)
            && (orphans < limit ==> |pass.due| == if limit - orphans < due then limit - orphans else due)
  {
  }

  /* ------------------------- orphans that keep coming ------------------------ */

  // Sessions that end one after another and cost one paisa each, with nobody there to collect them.
  function Newcomers(first: Id, n: nat): seq<Action> {
    if n == 0 then [] else Newcomers(first, n - 1) + [OpenCharge(0), Price(first + n - 1, 1, 0)]
  }

  function NewCharges(n: nat): seq<Charge> {
    seq(n, _ => Charge(0, Some(1), Some(0), false))
  }

  lemma {:induction false} NewcomersAreOnTime(first: Id, n: nat, now: int)
    ensures AllOnTime(Newcomers(first, n), now)
  {
    if n > 0 {
      NewcomersAreOnTime(first, n - 1, now);
    }
  }

  lemma OneArrives(sys: System)
    ensures var s := |sys.db.charges|;
            Run(sys, [OpenCharge(0), Price(s, 1, 0)])
            == sys.(db := sys.db.(charges := sys.db.charges + NewCharges(1)))
  {
    var charges := sys.db.charges;
    var unpriced := Next(sys, OpenCharge(0));
    RunTwo(sys, OpenCharge(0), Price(|charges|, 1, 0));
    assert unpriced.db.charges == charges + [Charge(0, None, None, false)];
    assert Next(unpriced, Price(|charges|, 1, 0)).db.charges == charges + [Charge(0, Some(1), Some(0), false)];
  }

  lemma {:induction false} NewcomersArrive(sys: System, n: nat)
    ensures Run(sys, Newcomers(|sys.db.charges|, n)) == sys.(db := sys.db.(charges := sys.db.charges + NewCharges(n)))
  {
    var first := |sys.db.charges|;
    if n == 0 {
      assert sys.db.charges + NewCharges(0) == sys.db.charges;
    } else {
      NewcomersArrive(sys, n - 1);
      var before := Run(sys, Newcomers(first, n - 1));
      RunThen(sys, Newcomers(first, n - 1), [OpenCharge(0), Price(first + n - 1, 1, 0)]);
      OneArrives(before);
      assert sys.db.charges + NewCharges(n) == sys.db.charges + NewCharges(n - 1) + NewCharges(1);
    }
  }

  function Span(first: nat, n: nat): (span: set<nat>)
    ensures |span| == n && forall s :: s in span <==> first <= s < first + n
  {
    if n == 0 then {} else Span(first, n - 1) + {first + n - 1}
  }

  // Each of them is an orphan, and no row changes.
  lemma AllAreOrphans(db: Db, db': Db, n: nat)
    requires DbSound(db) && db' == db.(charges := db.charges + NewCharges(n))
    ensures Sw.Orphans(db') == Sw.Orphans(db) + Span(|db.charges|, n)
  {
    forall s: Id | s < |db'.charges|
      ensures s in Sw.Orphans(db') <==> s in Sw.Orphans(db) || |db.charges| <= s
    {
      if s >= |db.charges| {
        forall i | 0 <= i < |db.payments| ensures db.payments[i].session != Some(s) {
          assert RowSound(db, db.payments[i]);
        }
      }
    }
  }

  /* ---------------------------- a crowded sweep ------------------------------ */

  // The target is due and the orphans alone fill the batch.
  ghost predicate Crowded(sys: System, limit: nat, target: Id, due: Option<int>) {
    Sound(sys) && |Sw.Orphans(sys.db)| == limit && Sw.StillDue(sys.db, target, due)
  }

  lemma ArrivalsCrowd(sys: System, limit: nat, target: Id, due: Option<int>)
    requires Crowded(sys, 0, target, due)
    ensures Crowded(Run(sys, Newcomers(|sys.db.charges|, limit)), limit, target, due)
  {
    var arrivals := Newcomers(|sys.db.charges|, limit);
    var after := Run(sys, arrivals);
    NewcomersArrive(sys, limit);
    RunStaysSound(sys, arrivals);
    AllAreOrphans(sys.db, after.db, limit);
    assert Sw.Orphans(sys.db) == {};
    assert Sw.Orphans(after.db) == Span(|sys.db.charges|, limit);
  }

  // A crowded sweep, run alone, clears the orphans and leaves the target where it was.
  lemma CrowdedSweep(sys: System, limit: nat, target: Id, due: Option<int>, now: int) returns (pass: Pass)
    requires Crowded(sys, limit, target, due)
    ensures pass.found == sys && pass.now == now && ValidPass(pass, limit) && Crowded(After(pass), 0, target, due)
  {
    var orphans := Sw.AnswerExists(Sw.Orphans(sys.db), Sw.EndOf(sys.db), limit);
    var call := Sw.Call(now, orphans, [], seq(|orphans|, _ => now));
    assert Sw.ValidCall(sys.db, limit, call);
    pass := SweepAsActions(sys, limit, call);
    PassIsSound(pass, limit);
    Sw.OrphansDrop(sys.db, limit, call);
    Sw.TargetUntouched(sys.db, limit, call, target);
  }

  // The same, with the next batch of orphans arriving before the next sweep.
  lemma CrowdedAgain(sys: System, limit: nat, target: Id, due: Option<int>, now: int) returns (pass: Pass)
    requires Crowded(sys, limit, target, due)
    ensures pass.found == sys && pass.now == now && ValidPass(pass, limit) && Crowded(After(pass), limit, target, due)
  {
    var alone := CrowdedSweep(sys, limit, target, due, now);
    var arrivals := Newcomers(|After(alone).db.charges|, limit);
    ArrivalsCrowd(After(alone), limit, target, due);
    RunThen(Mid(alone), alone.working, arrivals);
    NewcomersAreOnTime(|After(alone).db.charges|, limit, now);
    forall s: Id | Attempted(Mid(alone), alone.working, s) ensures Attempted(Mid(alone), alone.working + arrivals, s) {
      AttemptedBefore(Mid(alone), alone.working, arrivals, s);
    }
    pass := alone.(working := alone.working + arrivals);
  }

  // Sweeps one after another that leave the target due throughout.
  ghost predicate Blocked(passes: seq<Pass>, limit: nat, target: Id, due: Option<int>) {
    Passes(passes, limit, due) && forall k :: 0 <= k < |passes| ==> Sw.StillDue(After(passes[k]).db, target, due)
  }

  lemma OneMorePass(first: Pass, rest: seq<Pass>, limit: nat, due: Option<int>)
    requires ValidPass(first, limit) && NoLater(due, Some(first.now))
    requires Passes(rest, limit, due) && (rest != [] ==> rest[0].found == After(first))
    ensures Passes([first] + rest, limit, due)
  {
    var passes := [first] + rest;
    OneMoreInLine(first, rest);
    forall k: nat | k < |passes| ensures ValidPass(passes[k], limit) && NoLater(due, Some(passes[k].now)) {
      PassAt(first, rest, limit, due, k);
    }
  }

  lemma PassAt(first: Pass, rest: seq<Pass>, limit: nat, due: Option<int>, k: nat)
    requires ValidPass(first, limit) && NoLater(due, Some(first.now)) && k <= |rest|
    requires k > 0 ==> ValidPass(rest[k - 1], limit) && NoLater(due, Some(rest[k - 1].now))
    ensures var passes := [first] + rest; ValidPass(passes[k], limit) && NoLater(due, Some(passes[k].now))
  {
    if k > 0 {
      assert ([first] + rest)[k] == rest[k - 1];
    }
  }

  lemma OneMoreInLine(first: Pass, rest: seq<Pass>)
    requires Contiguous(rest) && (rest != [] ==> rest[0].found == After(first))
    ensures Contiguous([first] + rest)
  {
    var passes := [first] + rest;
    forall j, k | 0 <= j < k < |passes| && k == j + 1 ensures passes[k].found == After(passes[j]) {
      assert passes[k] == rest[k - 1] && passes[j] == if j == 0 then first else rest[j - 1];
    }
  }

  lemma OneMoreBlocked(first: Pass, rest: seq<Pass>, limit: nat, target: Id, due: Option<int>)
    requires ValidPass(first, limit) && NoLater(due, Some(first.now)) && Sw.StillDue(After(first).db, target, due)
    requires Blocked(rest, limit, target, due) && (rest != [] ==> rest[0].found == After(first))
    ensures Blocked([first] + rest, limit, target, due)
  {
    OneMorePass(first, rest, limit, due);
    var passes := [first] + rest;
    forall k | 0 <= k < |passes| ensures Sw.StillDue(After(passes[k]).db, target, due) {
      assert passes[k] == if k == 0 then first else rest[k - 1];
    }
  }

  // Any number of crowded sweeps, one interval apart.
  lemma {:induction false} CrowdedOn(sys: System, limit: nat, target: Id, due: Option<int>, now: int, n: nat)
    returns (passes: seq<Pass>)
    requires Crowded(sys, limit, target, due) && NoLater(due, Some(now))
    ensures |passes| == n && Blocked(passes, limit, target, due) && (n > 0 ==> passes[0].found == sys)
    decreases n
  {
    if n == 0 {
      passes := [];
    } else {
      var first := CrowdedAgain(sys, limit, target, due, now);
      var rest := CrowdedOn(After(first), limit, target, due, now + SETTLEMENT_SWEEP_INTERVAL_MS, n - 1);
      OneMoreBlocked(first, rest, limit, target, due);
      passes := [first] + rest;
    }
  }

  /* ------------------------------ from the start ----------------------------- */

  lemma AttemptFails(db: Db, db': Db, settled: Settled)
    requires db == Db(map[], [], [], NewCharges(1)) && Attempt(db, db', 0, 0, settled)
    ensures Sw.Orphans(db') == {} && Sw.StillDue(db', 0, Some(RetryDelayMs(1)))
  {
    assert db'.payments[0].session == Some(0);
  }

  // One session that its driver cannot pay for, tried once: its row waits for its second attempt.
  lemma OneUnpaid() returns (earlier: seq<Action>)
    ensures Crowded(Run(EMPTY, earlier), 0, 0, Some(RetryDelayMs(1)))
  {
    var one := Newcomers(0, 1);
    var sys := Run(EMPTY, one);
    EveryRunSound(one);
    assert sys == System(Db(map[], [], [], NewCharges(1)), []) by {
      NewcomersArrive(EMPTY, 1);
      assert [] + NewCharges(1) == NewCharges(1);
    }
    SettleAlone(sys.db, 0, 0);
    var (db', settled) := SettleSession(sys.db, 0, 0);
    AttemptFails(sys.db, db', settled);
    var settle := Uninterrupted.SettleAsActions(sys, 0, 0);
    earlier := one + settle;
    RunThen(EMPTY, one, settle);
    EveryRunSound(earlier);
  }

  // The comment on the sweep says that orphans can never block anything. For every batch size and every number
  // of sweeps there is a run in which a payment is due throughout, every sweep does all that it should, and
  // none of them tries it: each batch is filled by sessions that ended since the last.
  lemma OrphansCanBlock(limit: nat, n: nat)
    returns (earlier: seq<Action>, passes: seq<Pass>, target: Id, due: Option<int>)
    ensures |passes| == n && Blocked(passes, limit, target, due) && (n > 0 ==> passes[0].found == Run(EMPTY, earlier))
    ensures Sw.StillDue(Run(EMPTY, earlier).db, target, due)
  {
    var start := OneUnpaid();
    var sys := Run(EMPTY, start);
    var arrivals := Newcomers(|sys.db.charges|, limit);
    target, due := 0, Some(RetryDelayMs(1));
    ArrivalsCrowd(sys, limit, target, due);
    earlier := start + arrivals;
    RunThen(EMPTY, start, arrivals);
    passes := CrowdedOn(Run(EMPTY, earlier), limit, target, due, RetryDelayMs(1), n);
  }
}
