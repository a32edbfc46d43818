// Transaction ids handed out from in-memory counters by any number of processes on one database.
//
// A process boots with its counter at 1000 and seeds it from the database later, in two steps. A
// start takes the next id and saves it; if the unique index refuses, it reads the highest id
// persisted, moves its counter past it and saves once more. A refused start uses up an id that is
// never saved. Every await is a place where any other step may run.

module TransactionIds {
  import opened Sessions

  type Process = nat

  // A saved id, and the process that saved it.
  datatype Issue = Issue(id: nat, process: Process)

  // `seen` is how many ids were persisted when the highest was read; nothing but the statements uses it.
  datatype Handler =
    | Seeding(process: Process, highest: nat, seen: nat)
    | Saving(process: Process, id: nat)
    | Rereading(process: Process)
    | Reissuing(process: Process, highest: nat, seen: nat)
    | SavingAgain(process: Process, id: nat, seen: nat)
    | Started(process: Process, id: nat)
    | Lost(process: Process, id: nat, seen: nat)
    | Seeded(process: Process, seen: nat)

  datatype Ids = Ids(counters: seq<nat>, persisted: seq<Issue>, handlers: seq<Handler>)

  datatype Step =
    | Boot
    | ReadSeed(process: Process)
    | BeginStart(process: Process)
    | RefuseStart(process: Process)
    | Advance(handler: nat)

  const FIRST_TRANSACTION_ID := 1000

  const NO_PROCESS := Ids([], [], [])

  // The unique index unique_confirmed_transaction_id, as a query.
  predicate Taken(persisted: seq<Issue>, id: nat) {
    exists k :: 0 <= k < |persisted| && persisted[k].id == id
  }

  function Highest(persisted: seq<Issue>): (highest: nat)
    ensures forall k :: 0 <= k < |persisted| ==> persisted[k].id <= highest
    ensures highest > 0 ==> Taken(persisted, highest)
  {
    if persisted == [] then 0
    else
      var n := |persisted| - 1;
      var before := Highest(persisted[..n]);
      if persisted[n].id > before then persisted[n].id else before
  }

  function Seed(counter: nat, highest: nat): nat {
    if highest > counter then highest else counter
  }

  function StepHandler(ids: Ids, i: nat): Ids
    requires i < |ids.handlers|
  {
    var handler := ids.handlers[i];
    if handler.process >= |ids.counters| then ids
    else
      var p := handler.process;
      match handler
      case Seeding(_, highest, seen) =>
        ids.(counters := ids.counters[p := Seed(ids.counters[p], highest)],
             handlers := ids.handlers[i := Seeded(p, seen)])
      case Saving(_, id) =>
        if Taken(ids.persisted, id) then ids.(handlers := ids.handlers[i := Rereading(p)])
        else ids.(persisted := ids.persisted + [Issue(id, p)], handlers := ids.handlers[i := Started(p, id)])
      case Rereading(_) =>
        ids.(handlers := ids.handlers[i := Reissuing(p, Highest(ids.persisted), |ids.persisted|)])
      case Reissuing(_, highest, seen) =>
        var id := Seed(ids.counters[p], highest) + 1;
        ids.(counters := ids.counters[p := id], handlers := ids.handlers[i := SavingAgain(p, id, seen)])
      case SavingAgain(_, id, seen) =>
        if Taken(ids.persisted, id) then ids.(handlers := ids.handlers[i := Lost(p, id, seen)])
        else ids.(persisted := ids.persisted + [Issue(id, p)], handlers := ids.handlers[i := Started(p, id)])
      case _ => ids
  }

  function Take(ids: Ids, step: Step): Ids {
    match step
    case Boot => ids.(counters := ids.counters + [FIRST_TRANSACTION_ID])
    case ReadSeed(p) => ids.(handlers := ids.handlers + [Seeding(p, Highest(ids.persisted), |ids.persisted|)])
    case BeginStart(p) =>
      if p >= |ids.counters| then ids
      else
        var id := ids.counters[p] + 1;
        ids.(counters := ids.counters[p := id], handlers := ids.handlers + [Saving(p, id)])
    case RefuseStart(p) =>
      if p >= |ids.counters| then ids else ids.(counters := ids.counters[p := ids.counters[p] + 1])
    case Advance(i) => if i >= |ids.handlers| then ids else StepHandler(ids, i)
  }

  function Steps(ids: Ids, steps: seq<Step>): Ids {
    if steps == [] then ids else Take(Steps(ids, steps[..|steps| - 1]), steps[|steps| - 1])
  }

  /* -------------------------------- invariant -------------------------------- */

  predicate Holds(handler: Handler) {
    handler.Saving? || handler.SavingAgain?
  }

  // An id in hand came from its process's counter, and its process has not saved it yet.
  ghost predicate HandlerSound(ids: Ids, handler: Handler) {
    && (handler.Seeded? ==>
          handler.process < |ids.counters| && handler.seen <= |ids.persisted|
          && ids.counters[handler.process] >= Highest(ids.persisted[..handler.seen]))
    && (handler.Reissuing? || handler.Seeding? ==>
          handler.seen <= |ids.persisted| && handler.highest == Highest(ids.persisted[..handler.seen]))
    && (Holds(handler) ==>
          && handler.process < |ids.counters| && handler.id <= ids.counters[handler.process]
          && Issue(handler.id, handler.process) !in ids.persisted)
    && (handler.SavingAgain? || handler.Lost? ==>
          handler.seen <= |ids.persisted| && handler.id > Highest(ids.persisted[..handler.seen]))
    && (handler.Started? ==> Issue(handler.id, handler.process) in ids.persisted)
    && (handler.Lost? ==> TakenByAnother(ids.persisted, handler.seen, handler.id, handler.process))
  }

  // Another process saved exactly this id among the rows from `seen` on.
  predicate TakenByAnother(persisted: seq<Issue>, seen: nat, id: nat, process: Process) {
    exists k :: seen <= k < |persisted| && persisted[k].id == id && persisted[k].process != process
  }

  ghost predicate IdsSound(ids: Ids) {
    && (forall j, k :: 0 <= j < k < |ids.persisted| ==> ids.persisted[j].id != ids.persisted[k].id)
    && (forall p :: 0 <= p < |ids.counters| ==> ids.counters[p] >= FIRST_TRANSACTION_ID)
    && (forall k :: 0 <= k < |ids.persisted| ==>
          ids.persisted[k].process < |ids.counters| && ids.persisted[k].id <= ids.counters[ids.persisted[k].process])
    && (forall i :: 0 <= i < |ids.handlers| ==> HandlerSound(ids, ids.handlers[i]))
    && (forall i, j :: 0 <= i < j < |ids.handlers| && Holds(ids.handlers[i]) && Holds(ids.handlers[j]) ==>
          ids.handlers[i].process != ids.handlers[j].process || ids.handlers[i].id != ids.handlers[j].id)
    && (forall i, j :: 0 <= i < j < |ids.handlers| && ids.handlers[i].Started? && ids.handlers[j].Started? ==>
          ids.handlers[i].id != ids.handlers[j].id)
  }

  // What one step leaves alone: saved rows stay, counters never fall.
  predicate Extends(ids: Ids, ids': Ids) {
    && ids.persisted <= ids'.persisted && |ids.counters| <= |ids'.counters|
    && (forall p :: 0 <= p < |ids.counters| ==> ids.counters[p] <= ids'.counters[p])
    && (forall p :: |ids.counters| <= p < |ids'.counters| ==> ids'.counters[p] >= FIRST_TRANSACTION_ID)
  }

  // A handler that is not the one running stays sound when only other ids are saved.
  lemma StaysSound(ids: Ids, ids': Ids, handler: Handler)
    requires HandlerSound(ids, handler) && Extends(ids, ids')
    requires Holds(handler) ==> Issue(handler.id, handler.process) !in ids'.persisted[|ids.persisted|..]
    ensures HandlerSound(ids', handler)
  {
    var n := |ids.persisted|;
    assert ids'.persisted[..n] == ids.persisted;
    assert ids'.persisted == ids'.persisted[..n] + ids'.persisted[n..];
    if handler.Seeding? || handler.Seeded? || handler.Reissuing? || handler.SavingAgain? || handler.Lost? {
      assert ids'.persisted[..handler.seen] == ids.persisted[..handler.seen];
    }
    if handler.Lost? {
      var k :| handler.seen <= k < n && ids.persisted[k].id == handler.id
        && ids.persisted[k].process != handler.process;
      assert ids'.persisted[k] == ids.persisted[k];
    }
  }

  // A refused retry lost its id to another process, after the read.
  lemma RefusedByAnother(ids: Ids, handler: Handler)
    requires HandlerSound(ids, handler) && handler.SavingAgain? && Taken(ids.persisted, handler.id)
    ensures TakenByAnother(ids.persisted, handler.seen, handler.id, handler.process)
  {
    forall q | 0 <= q < handler.seen ensures ids.persisted[q].id < handler.id {
      assert ids.persisted[..handler.seen][q] == ids.persisted[q];
    }
    var k :| 0 <= k < |ids.persisted| && ids.persisted[k].id == handler.id;
    assert ids.persisted[k] in ids.persisted && handler.seen <= k;
  }

  // A handler that is not the saver stays sound, and holds and has started with another id.
  lemma BystanderSound(ids: Ids, i: nat, j: nat)
    requires IdsSound(ids) && i < |ids.handlers| && j < |ids.handlers| && j != i
    requires Holds(ids.handlers[i]) && !Taken(ids.persisted, ids.handlers[i].id)
    ensures HandlerSound(StepHandler(ids, i), ids.handlers[j])
    ensures ids.handlers[j].Started? ==> ids.handlers[j].id != ids.handlers[i].id
  {
    var saver, other := ids.handlers[i], ids.handlers[j];
    assert HandlerSound(ids, saver) && HandlerSound(ids, other);
    assert StepHandler(ids, i).persisted[|ids.persisted|..] == [Issue(saver.id, saver.process)];
    StaysSound(ids, StepHandler(ids, i), other);
  }

  lemma StoreSound(ids: Ids, i: nat)
    requires IdsSound(ids) && i < |ids.handlers| && Holds(ids.handlers[i]) && !Taken(ids.persisted, ids.handlers[i].id)
    ensures IdsSound(StepHandler(ids, i)) && Extends(ids, StepHandler(ids, i))
  {
    var ids' := StepHandler(ids, i);
    var saver := ids.handlers[i];
    assert HandlerSound(ids, saver);
    assert ids'.persisted[|ids.persisted|] == Issue(saver.id, saver.process);
    forall j | 0 <= j < |ids'.handlers|
      ensures HandlerSound(ids', ids'.handlers[j])
      ensures j != i && ids'.handlers[j].Started? ==> ids'.handlers[j].id != saver.id
    {
      if j != i {
        BystanderSound(ids, i, j);
      }
    }
  }

  lemma SaveSound(ids: Ids, i: nat)
    requires IdsSound(ids) && i < |ids.handlers| && Holds(ids.handlers[i])
    ensures IdsSound(StepHandler(ids, i)) && Extends(ids, StepHandler(ids, i))
  {
    var handler := ids.handlers[i];
    assert HandlerSound(ids, handler);
    if !Taken(ids.persisted, handler.id) {
      StoreSound(ids, i);
    } else {
      if handler.SavingAgain? {
        RefusedByAnother(ids, handler);
      }
      MoveSound(ids, StepHandler(ids, i), i);
    }
  }

  lemma CounterSound(ids: Ids, ids': Ids)
    requires IdsSound(ids) && Extends(ids, ids') && ids'.persisted == ids.persisted
    requires ids'.handlers == ids.handlers
    ensures IdsSound(ids')
  {
  }

  // A handler that moves without saving: either it holds no id, or the fresh top of its counter.
  lemma MoveSound(ids: Ids, ids': Ids, i: nat)
    requires IdsSound(ids) && Extends(ids, ids') && ids'.persisted == ids.persisted
    requires i < |ids'.handlers| && |ids.handlers| <= |ids'.handlers| <= |ids.handlers| + 1
    requires forall j :: 0 <= j < |ids'.handlers| && j != i ==>
               j < |ids.handlers| && ids'.handlers[j] == ids.handlers[j]
    requires HandlerSound(ids', ids'.handlers[i]) && !ids'.handlers[i].Started?
    requires Holds(ids'.handlers[i]) ==>
               ids'.handlers[i].process < |ids.counters| && ids'.handlers[i].id > ids.counters[ids'.handlers[i].process]
    ensures IdsSound(ids')
  {
    forall j | 0 <= j < |ids'.handlers| ensures HandlerSound(ids', ids'.handlers[j]) {
      var handler := ids'.handlers[j];
      if j != i {
        StaysSound(ids, ids', handler);
      }
    }
    forall j | 0 <= j < |ids'.handlers| && j != i && Holds(ids'.handlers[j]) && Holds(ids'.handlers[i])
      ensures ids'.handlers[j].process != ids'.handlers[i].process || ids'.handlers[j].id != ids'.handlers[i].id
    {
      assert HandlerSound(ids, ids.handlers[j]);
    }
  }

  // The top of a counter plus one is above everything its process has saved.
  lemma FreshAbove(ids: Ids, p: Process, id: nat)
    requires IdsSound(ids) && p < |ids.counters| && id > ids.counters[p]
    ensures Issue(id, p) !in ids.persisted
  {
  }

  lemma SeedingSound(ids: Ids, i: nat)
    requires IdsSound(ids) && i < |ids.handlers| && ids.handlers[i].Seeding? && ids.handlers[i].process < |ids.counters|
    ensures IdsSound(StepHandler(ids, i)) && Extends(ids, StepHandler(ids, i))
  {
    assert HandlerSound(ids, ids.handlers[i]);
    MoveSound(ids, StepHandler(ids, i), i);
  }

  lemma RereadingSound(ids: Ids, i: nat)
    requires IdsSound(ids) && i < |ids.handlers| && ids.handlers[i].Rereading?
             && ids.handlers[i].process < |ids.counters|
    ensures IdsSound(StepHandler(ids, i)) && Extends(ids, StepHandler(ids, i))
  {
    assert ids.persisted[..|ids.persisted|] == ids.persisted;
    MoveSound(ids, StepHandler(ids, i), i);
  }

  lemma ReissuingSound(ids: Ids, i: nat)
    requires IdsSound(ids) && i < |ids.handlers| && ids.handlers[i].Reissuing?
             && ids.handlers[i].process < |ids.counters|
    ensures IdsSound(StepHandler(ids, i)) && Extends(ids, StepHandler(ids, i))
  {
    var ids' := StepHandler(ids, i);
    assert HandlerSound(ids, ids.handlers[i]);
    FreshAbove(ids, ids.handlers[i].process, ids'.handlers[i].id);
    MoveSound(ids, ids', i);
  }

  lemma AdvanceSound(ids: Ids, i: nat)
    requires IdsSound(ids) && i < |ids.handlers|
    ensures IdsSound(StepHandler(ids, i)) && Extends(ids, StepHandler(ids, i))
  {
    if ids.handlers[i].process < |ids.counters| {
      match ids.handlers[i]
      case Seeding(_, _, _) => SeedingSound(ids, i);
      case Rereading(_) => RereadingSound(ids, i);
      case Reissuing(_, _, _) => ReissuingSound(ids, i);
      case Saving(_, _) => SaveSound(ids, i);
      case SavingAgain(_, _, _) => SaveSound(ids, i);
      case _ =>
    }
  }

  lemma ReadSeedSound(ids: Ids, p: Process)
    requires IdsSound(ids)
    ensures IdsSound(Take(ids, ReadSeed(p))) && Extends(ids, Take(ids, ReadSeed(p)))
  {
    assert ids.persisted[..|ids.persisted|] == ids.persisted;
    MoveSound(ids, Take(ids, ReadSeed(p)), |ids.handlers|);
  }

  lemma BeginStartSound(ids: Ids, p: Process)
    requires IdsSound(ids)
    ensures IdsSound(Take(ids, BeginStart(p))) && Extends(ids, Take(ids, BeginStart(p)))
  {
    if p < |ids.counters| {
      FreshAbove(ids, p, ids.counters[p] + 1);
      MoveSound(ids, Take(ids, BeginStart(p)), |ids.handlers|);
    }
  }

  lemma TakeSound(ids: Ids, step: Step)
    requires IdsSound(ids)
    ensures IdsSound(Take(ids, step)) && Extends(ids, Take(ids, step))
  {
    match step
    case Boot => CounterSound(ids, Take(ids, step));
    case RefuseStart(_) => CounterSound(ids, Take(ids, step));
    case ReadSeed(p) => ReadSeedSound(ids, p);
    case BeginStart(p) => BeginStartSound(ids, p);
    case Advance(i) =>
      if i < |ids.handlers| {
        AdvanceSound(ids, i);
      }
  }

  lemma {:induction false} StepsSound(steps: seq<Step>)
    ensures IdsSound(Steps(NO_PROCESS, steps))
  {
    if steps != [] {
      StepsSound(steps[..|steps| - 1]);
      TakeSound(Steps(NO_PROCESS, steps[..|steps| - 1]), steps[|steps| - 1]);
    }
  }

  /* -------------------------------- guarantees ------------------------------- */

  // No two sessions share a transaction id, and no two starts are told the same one.
  lemma {:induction false} IdsNeverShared(steps: seq<Step>)
    ensures var ids := Steps(NO_PROCESS, steps);
            && (forall j, k :: 0 <= j < k < |ids.persisted| ==> ids.persisted[j].id != ids.persisted[k].id)
            && (forall i :: 0 <= i < |ids.handlers| && ids.handlers[i].Started? ==>
                  Issue(ids.handlers[i].id, ids.handlers[i].process) in ids.persisted)
            && (forall i, j :: 0 <= i < j < |ids.handlers| && ids.handlers[i].Started? && ids.handlers[j].Started? ==>
                  ids.handlers[i].id != ids.handlers[j].id)
  {
    StepsSound(steps);
    var ids := Steps(NO_PROCESS, steps);
    forall i | 0 <= i < |ids.handlers| && ids.handlers[i].Started?
      ensures Issue(ids.handlers[i].id, ids.handlers[i].process) in ids.persisted
    {
      assert HandlerSound(ids, ids.handlers[i]);
    }
  }

  // The reissued id is above every id persisted at the read; so the retry is refused exactly when
  // another process has saved that very id since.
  lemma RetryFailsOnlyBehindAnotherProcess(steps: seq<Step>, i: nat)
    requires i < |Steps(NO_PROCESS, steps).handlers| && Steps(NO_PROCESS, steps).handlers[i].SavingAgain?
    ensures var ids := Steps(NO_PROCESS, steps);
            var handler := ids.handlers[i];
            && handler.seen <= |ids.persisted|
            && (forall k :: 0 <= k < handler.seen ==> ids.persisted[k].id < handler.id)
            && (StepHandler(ids, i).handlers[i].Lost?
                <==> TakenByAnother(ids.persisted, handler.seen, handler.id, handler.process))
            && (StepHandler(ids, i).handlers[i].Started?
                <==> !TakenByAnother(ids.persisted, handler.seen, handler.id, handler.process))
  {
    StepsSound(steps);
    var ids := Steps(NO_PROCESS, steps);
    var handler := ids.handlers[i];
    assert HandlerSound(ids, handler);
    forall k | 0 <= k < handler.seen ensures ids.persisted[k].id < handler.id {
      assert ids.persisted[..handler.seen][k] == ids.persisted[k];
    }
    SaveSound(ids, i);
    assert HandlerSound(StepHandler(ids, i), StepHandler(ids, i).handlers[i]);
  }

  // Every start that was given up lost its id to another process, in every run.
  lemma LostOnlyToAnotherProcess(steps: seq<Step>, i: nat)
    requires i < |Steps(NO_PROCESS, steps).handlers| && Steps(NO_PROCESS, steps).handlers[i].Lost?
    ensures var ids := Steps(NO_PROCESS, steps);
            TakenByAnother(ids.persisted, ids.handlers[i].seen, ids.handlers[i].id, ids.handlers[i].process)
  {
    StepsSound(steps);
    assert HandlerSound(Steps(NO_PROCESS, steps), Steps(NO_PROCESS, steps).handlers[i]);
  }

  /* ----------------------------- throwaway ids ------------------------------- */

  // This step hands out this id for this process: to a start, to a refusal, or to a retry.
  predicate Hands(ids: Ids, step: Step, p: Process, id: nat) {
    && p < |ids.counters|
    && match step
       case BeginStart(q) => q == p && id == ids.counters[p] + 1
       case RefuseStart(q) => q == p && id == ids.counters[p] + 1
       case Advance(i) =>
         i < |ids.handlers| && ids.handlers[i].Reissuing? && ids.handlers[i].process == p
         && id == Seed(ids.counters[p], ids.handlers[i].highest) + 1
       case _ => false
  }

  // Some continuation hands it out.
  ghost predicate CanHand(ids: Ids, p: Process, id: nat) {
    exists steps: seq<Step>, step: Step :: Hands(Steps(ids, steps), step, p, id)
  }

  lemma {:induction false} CountersNeverFall(ids: Ids, steps: seq<Step>, p: Process)
    requires p < |ids.counters|
    ensures p < |Steps(ids, steps).counters| && ids.counters[p] <= Steps(ids, steps).counters[p]
  {
    if steps != [] {
      CountersNeverFall(ids, steps[..|steps| - 1], p);
    }
  }

  function Refusals(p: Process, n: nat): seq<Step> {
    seq(n, _ => RefuseStart(p))
  }

  lemma {:induction false} RefusalsCountUp(ids: Ids, p: Process, n: nat)
    requires p < |ids.counters|
    ensures Steps(ids, Refusals(p, n)) == ids.(counters := ids.counters[p := ids.counters[p] + n])
  {
    if n == 0 {
      assert ids.counters[p := ids.counters[p]] == ids.counters;
    } else {
      RefusalsCountUp(ids, p, n - 1);
      assert Refusals(p, n)[..n - 1] == Refusals(p, n - 1);
    }
  }

  // A process can still hand out exactly the ids above its counter.
  lemma HandsWhatIsAbove(ids: Ids, p: Process, id: nat)
    requires p < |ids.counters|
    ensures CanHand(ids, p, id) <==> id > ids.counters[p]
  {
    if id > ids.counters[p] {
      var n := id - ids.counters[p] - 1;
      RefusalsCountUp(ids, p, n);
      assert Hands(Steps(ids, Refusals(p, n)), BeginStart(p), p, id);
    }
    if CanHand(ids, p, id) {
      var steps: seq<Step>, step: Step :| Hands(Steps(ids, steps), step, p, id);
      CountersNeverFall(ids, steps, p);
    }
  }

  // In every run, whatever a process did before its late seed landed: afterwards it is past 1000
  // and past every id persisted when the seed was read, and it hands out nothing at or below those again.
  lemma SeededIsPastWhatItRead(steps: seq<Step>, i: nat, id: nat)
    requires i < |Steps(NO_PROCESS, steps).handlers| && Steps(NO_PROCESS, steps).handlers[i].Seeded?
    ensures var ids := Steps(NO_PROCESS, steps); var seeded := ids.handlers[i];
            && seeded.process < |ids.counters| && seeded.seen <= |ids.persisted|
            && ids.counters[seeded.process] >= 1000
            && (forall k :: 0 <= k < seeded.seen ==> ids.persisted[k].id <= ids.counters[seeded.process])
            && (CanHand(ids, seeded.process, id) ==>
                  id > 1000 && forall k :: 0 <= k < seeded.seen ==> ids.persisted[k].id < id)
  {
    StepsSound(steps);
    var ids := Steps(NO_PROCESS, steps);
    var seeded := ids.handlers[i];
    assert HandlerSound(ids, seeded);
    HandsWhatIsAbove(ids, seeded.process, id);
    forall k | 0 <= k < seeded.seen ensures ids.persisted[k].id <= ids.counters[seeded.process] {
      assert ids.persisted[..seeded.seen][k] == ids.persisted[k];
    }
  }

  // Exactly which ids a restarted process can hand out, once the seed it has read is applied: those above
  // its own counter, and above every id persisted at the read. So an id that only refused starts used up
  // comes back if and only if no id from it on had been saved when the seed was read; a process that has
  // handed out nothing yet counts from 1000.
  lemma ThrowawayIdsComeBackExactlyWhen(steps: seq<Step>, i: nat, id: nat)
    requires i < |Steps(NO_PROCESS, steps).handlers| && Steps(NO_PROCESS, steps).handlers[i].Seeding?
    requires Steps(NO_PROCESS, steps).handlers[i].process < |Steps(NO_PROCESS, steps).counters|
    ensures var ids := Steps(NO_PROCESS, steps); var seeding := ids.handlers[i];
            && seeding.seen <= |ids.persisted|
            && (CanHand(Take(ids, Advance(i)), seeding.process, id)
                <==> id > ids.counters[seeding.process]
                     && forall k :: 0 <= k < seeding.seen ==> ids.persisted[k].id < id)
  {
    StepsSound(steps);
    var ids := Steps(NO_PROCESS, steps);
    var seeding := ids.handlers[i];
    assert HandlerSound(ids, seeding);
    var read := ids.persisted[..seeding.seen];
    HandsWhatIsAbove(Take(ids, Advance(i)), seeding.process, id);
    assert forall k :: 0 <= k < seeding.seen ==> read[k] == ids.persisted[k];
    if seeding.highest > 0 {
      var k :| 0 <= k < |read| && read[k].id == seeding.highest;
    }
  }

  // Such an id does come back: used up by a refused start, it is saved by the next process.
  lemma ThrowawayIdsComeBack()
    ensures var before := Steps(NO_PROCESS, [Boot, RefuseStart(0)]);
            var after := Steps(before, [Boot, ReadSeed(1), Advance(0), BeginStart(1), Advance(1)]);
            before.counters[0] == 1001 && after.persisted == [Issue(1001, 1)]
  {
    var before := Steps(NO_PROCESS, [Boot, RefuseStart(0)]);
    assert [Boot, RefuseStart(0)][..1] == [Boot] && [Boot][..0] == [];
    var s := [Boot, ReadSeed(1), Advance(0), BeginStart(1), Advance(1)];
    assert s[..4] == [Boot, ReadSeed(1), Advance(0), BeginStart(1)];
    assert s[..4][..3] == [Boot, ReadSeed(1), Advance(0)] && s[..4][..3][..2] == [Boot, ReadSeed(1)];
    assert [Boot, ReadSeed(1)][..1] == [Boot];
    assert Steps(before, [Boot]).counters == [1001, 1000];
    assert Steps(before, s[..4][..3][..2]).handlers == [Seeding(1, 0, 0)];
    assert Steps(before, s[..4][..3]).handlers == [Seeded(1, 0)];
    assert Steps(before, s[..4]).handlers == [Seeded(1, 0), Saving(1, 1001)];
  }

  /* ---------------------- the handler taken as one step ---------------------- */

  // The rows persisted here are the transaction ids of these sessions.
  ghost predicate SameIds(sessions: seq<Session>, persisted: seq<Issue>) {
    forall id: nat :: TransactionTaken(sessions, id) <==> Taken(persisted, id)
  }

  // A start that runs without interruption saves the id that the session handler's model allocates,
  // and leaves the counter there.
  lemma AloneIsAllocateFor(ids: Ids, sessions: seq<Session>, p: Process)
    requires p < |ids.counters| && SameIds(sessions, ids.persisted)
    ensures var i := |ids.handlers|;
            var id := AllocateFor(sessions, ids.counters[p]);
            var first := Take(Take(ids, BeginStart(p)), Advance(i));
            var done := if first.handlers[i].Started? then first
                        else Take(Take(Take(first, Advance(i)), Advance(i)), Advance(i));
            && done.persisted == ids.persisted + [Issue(id, p)] && done.handlers == ids.handlers + [Started(p, id)]
            && done.counters == ids.counters[p := id]
  {
  }
}
