// A call run without interruption is itself an interleaving: what is proved of lists of such calls is
// proved of states that runs reach.

module Uninterrupted {
  import opened Options
  import opened Settlement
  import opened Settling
  import TopUp

  predicate OneCaller(actions: seq<Action>) {
    forall k :: 0 <= k < |actions| ==> actions[k].Call? || actions[k].Advance?
  }

  // Every step of these reads this clock.
  predicate AllAt(actions: seq<Action>, now: int) {
    forall k :: 0 <= k < |actions| && actions[k].Advance? ==> actions[k].now == now
  }

  // A caller driven to its end takes some number of steps, one after another.
  lemma {:induction false} FinishAsActions(sys: System, i: nat, now: int) returns (more: seq<Action>)
    requires i < |sys.callers|
    ensures OneCaller(more) && AllAt(more, now)
    ensures var (db', c') := Finish(sys.db, sys.callers[i], now); Run(sys, more) == System(db', sys.callers[i := c'])
    decreases StepsLeft(sys.callers[i])
  {
    var c := sys.callers[i];
    if Done(c) {
      assert sys.callers[i := c] == sys.callers;
      more := [];
    } else {
      var (db1, c1) := StepCaller(sys.db, c, now);
      var next := Next(sys, Advance(i, now));
      assert Finish(sys.db, c, now) == Finish(db1, c1, now);
      var rest := FinishAsActions(next, i, now);
      RunThen(sys, [Advance(i, now)], rest);
      RunOne(sys, [], Advance(i, now));
      assert [] + [Advance(i, now)] == [Advance(i, now)];
      more := [Advance(i, now)] + rest;
    }
  }

  // Any of the three entry points is called, and its caller steps until it has returned.
  lemma CallAsActions(sys: System, c: Caller, now: int) returns (more: seq<Action>)
    requires c.SettleRead? || c.VerifyRead? || c.WebhookRead?
    ensures OneCaller(more) && AllAt(more, now) && more != [] && more[0] == Call(c)
    ensures var (db', c') := Finish(sys.db, c, now); Run(sys, more) == System(db', sys.callers + [c'])
  {
    var called := Next(sys, Call(c));
    var rest := FinishAsActions(called, |sys.callers|, now);
    RunThen(sys, [Call(c)], rest);
    RunOne(sys, [], Call(c));
    assert [] + [Call(c)] == [Call(c)];
    more := [Call(c)] + rest;
    var (db', c') := Finish(sys.db, c, now);
    assert (sys.callers + [c])[|sys.callers| := c'] == sys.callers + [c'];
  }

  lemma SettleAsActions(sys: System, s: Id, now: int) returns (more: seq<Action>)
    ensures OneCaller(more) && AllAt(more, now) && more != [] && more[0] == Call(SettleRead(s))
    ensures var last := Run(sys, more);
            && last.db == SettleSession(sys.db, s, now).0
            && |last.callers| == |sys.callers| + 1 && Done(last.callers[|sys.callers|])
  {
    more := CallAsActions(sys, SettleRead(s), now);
  }

  // In every state a webhook, left to run, credits its row if it may and acknowledges a repeat.
  lemma WebhookAsActions(sys: System, orderId: string, reference: string, now: int)
    returns (more: seq<Action>, verified: Verified)
    ensures more != [] && more[0] == Call(WebhookRead(orderId, reference)) && OneCaller(more)
    ensures Run(sys, more).callers == sys.callers + [VerifyDone(verified)]
    ensures ConfirmedOnce(sys.db, Run(sys, more).db, verified, orderId, reference, true, None, now)
  {
    more := CallAsActions(sys, WebhookRead(orderId, reference), now);
    verified := Finish(sys.db, WebhookRead(orderId, reference), now).1.verified;
    WebhookEffect(sys.db, orderId, reference, now);
  }

  // So is the whole top-up loop.
  lemma {:induction false} OutstandingAsActions(sys: System, ids: seq<Id>, times: seq<int>) returns (more: seq<Action>)
    requires |times| == |ids|
    ensures OneCaller(more) && Run(sys, more).db == TopUp.SettleOutstanding(sys.db, ids, times).0
    decreases |ids|
  {
    if ids == [] {
      more := [];
    } else {
      more := SettleAsActions(sys, ids[0], times[0]);
      if SettleSession(sys.db, ids[0], times[0]).1 != Deferred {
        var rest := OutstandingAsActions(Run(sys, more), ids[1..], times[1..]);
        RunThen(sys, more, rest);
        more := more + rest;
      }
    }
  }
}
