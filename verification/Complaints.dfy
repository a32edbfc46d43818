// Support tickets: the lifecycle, who may move a ticket where, and the history every move leaves.

module Complaints {
  import opened Options

  type Id = nat

  datatype Status = Open | InProgress | Resolved | Closed
  datatype Category = ChargerIssue | SessionIssue | PaymentIssue | StationIssue | AccountIssue | Other
  datatype Priority = Low | Medium | High
  datatype Role = Driver | Operator | CpoAdmin | SuperAdmin | System

  datatype Entry = Entry(from: Status, to: Status, actor: Role, user: Option<Id>, note: Option<string>, at: int)
  datatype WorkNote = WorkNote(actor: Role, user: Id, text: string, at: int)

  datatype Complaint = Complaint(
    reporter: Id, category: Category, priority: Priority, status: Status,
    resolution: Option<string>, resolvedBy: Option<Id>, resolvedAt: Option<int>,
    history: seq<Entry>, reopenCount: nat, owner: Option<Id>, notes: seq<WorkNote>)

  // How a request ends: 200, 404, 409, 403 or 422.
  datatype Outcome = Done | NotFound | Conflict | Forbidden | Invalid

  const AUTO_CLOSE_AFTER_MS := 7 * 24 * 60 * 60 * 1000

  // Texts arrive trimmed by the validators, so one that is not empty says something.
  predicate Says(text: Option<string>) {
    text.Some? && text.value != ""
  }

  /* ----------------------------------- rules --------------------------------- */

  predicate Allowed(from: Status, to: Status) {
    match from
    case Open => to == InProgress || to == Closed
    case InProgress => to == Open || to == Resolved || to == Closed
    case Resolved => to == Open || to == Closed
    case Closed => false
  }

  predicate AdminOnly(from: Status, to: Status) {
    to == Closed || (from == Resolved && to == Open)
  }

  predicate OperatorResolvable(category: Category) {
    category != PaymentIssue && category != AccountIssue
  }

  predicate Staff(role: Role) {
    role == Operator || role == CpoAdmin || role == SuperAdmin
  }

  // Who may make which move.
  predicate Permitted(category: Category, from: Status, to: Status, actor: Role) {
    match actor
    case Driver => from == Resolved && (to == Closed || to == Open)
    case System => from == Resolved && to == Closed
    case Operator => Allowed(from, to) && !AdminOnly(from, to) && (to == Resolved ==> OperatorResolvable(category))
    case _ => Allowed(from, to)
  }

  /* ----------------------------------- moves --------------------------------- */

  // The one place a status is written.
  function Move(c: Complaint, to: Status, actor: Role, user: Option<Id>, note: Option<string>, at: int): Complaint {
    var resolving := if to == Resolved then c.(resolvedBy := user, resolvedAt := Some(at)) else c;
    var reopening := if c.status == Resolved && to == Open
                     then resolving.(resolvedBy := None, resolvedAt := None, reopenCount := resolving.reopenCount + 1)
                     else resolving;
    reopening.(status := to, history := c.history + [Entry(c.status, to, actor, user, note, at)])
  }

  // setComplaintStatus, behind a validator that refuses a blank resolution.
  function SetStatus(c: Complaint, role: Role, user: Id, to: Status, resolution: Option<string>, now: int)
    : (Complaint, Outcome)
  {
    if !Staff(role) then (c, Forbidden)
    else if resolution.Some? && !Says(resolution) then (c, Invalid)
    else if c.status == to then (c, Done)
    else if !Allowed(c.status, to) then (c, Conflict)
    else if role == Operator && AdminOnly(c.status, to) then (c, Forbidden)
    else if role == Operator && to == Resolved && !OperatorResolvable(c.category) then (c, Forbidden)
    else
      var text := if resolution.Some? then resolution else c.resolution;
      if to == Resolved then
        if !Says(text) then (c, Invalid)
        else (Move(c.(resolution := text), to, role, Some(user), text, now), Done)
      else if to == Closed && c.status != Resolved then
        if resolution.None? then (c, Invalid)
        else (Move(c.(resolution := resolution), to, role, Some(user), resolution, now), Done)
      else
        var moved := Move(c, to, role, Some(user), resolution, now);
        (if to == InProgress && moved.owner.None? then moved.(owner := Some(user)) else moved, Done)
  }

  const CONFIRMED_NOTE := "Driver confirmed the fix."

  // confirmComplaintResolved and reopenComplaint, by the driver who reported it.
  function Confirm(c: Complaint, user: Id, now: int): (Complaint, Outcome) {
    if user != c.reporter then (c, NotFound)
    else if c.status != Resolved then (c, Conflict)
    else (Move(c, Closed, Driver, Some(user), Some(CONFIRMED_NOTE), now), Done)
  }

  const MIN_REASON := 10

  function Reopen(c: Complaint, user: Id, reason: string, now: int): (Complaint, Outcome) {
    if |reason| < MIN_REASON then (c, Invalid)
    else if user != c.reporter then (c, NotFound)
    else if c.status != Resolved then (c, Conflict)
    else (Move(c, Open, Driver, Some(user), Some(reason), now), Done)
  }

  const MIN_NOTE := 2

  // updateComplaint: a draft resolution, a work note, a priority; at least one of them.
  function Annotate(c: Complaint, role: Role, user: Id, resolution: Option<string>, note: Option<string>,
                    priority: Option<Priority>, now: int): (Complaint, Outcome)
  {
    if !Staff(role) then (c, Forbidden)
    else if (resolution.Some? && !Says(resolution)) || (note.Some? && |note.value| < MIN_NOTE)
            || (resolution.None? && note.None? && priority.None?)
    then (c, Invalid)
    else if c.status == Closed then (c, Conflict)
    else
      (c.(priority := if priority.Some? then priority.value else c.priority,
          resolution := if resolution.Some? then resolution else c.resolution,
          notes := if note.Some? then c.notes + [WorkNote(role, user, note.value, now)] else c.notes), Done)
  }

  // assignComplaint. `visible`: the assignee is active staff who can see this complaint.
  function Assign(c: Complaint, role: Role, user: Id, assignee: Option<Id>, visible: bool): (Complaint, Outcome) {
    if !Staff(role) then (c, Forbidden)
    else if c.status == Closed then (c, Conflict)
    else if role == Operator && assignee != Some(user) && !(assignee.None? && c.owner == Some(user)) then (c, Forbidden)
    else if assignee.Some? && !visible then (c, Invalid)
    else (c.(owner := assignee), Done)
  }

  // What the sweep finds: resolved, and nobody replied for a week.
  predicate Overdue(c: Complaint, now: int) {
    c.status == Resolved && c.resolvedAt.Some? && c.resolvedAt.value < now - AUTO_CLOSE_AFTER_MS
  }

  const AUTO_CLOSE_NOTE := "Closed automatically \U{2014} no reply within 7 days of being resolved."

  function AutoClose(c: Complaint, now: int): Complaint {
    if Overdue(c, now) then Move(c, Closed, System, None, Some(AUTO_CLOSE_NOTE), now) else c
  }

  function SweepAll(complaints: seq<Complaint>, now: int): (swept: seq<Complaint>)
    ensures |swept| == |complaints|
    ensures forall i :: 0 <= i < |complaints| ==> swept[i] == AutoClose(complaints[i], now)
  {
    seq(|complaints|, i requires 0 <= i < |complaints| => AutoClose(complaints[i], now))
  }

  datatype Action =
    | File(reporter: Id, category: Category, initial: Priority)
    | ChangeStatus(c: Id, role: Role, user: Id, to: Status, resolution: Option<string>, now: int)
    | DriverConfirms(c: Id, user: Id, now: int)
    | DriverReopens(c: Id, user: Id, reason: string, now: int)
    | Update(c: Id, role: Role, user: Id, resolution: Option<string>, note: Option<string>,
             priority: Option<Priority>, now: int)
    | Reassign(c: Id, role: Role, user: Id, assignee: Option<Id>, visible: bool)
    | Sweep(now: int)

  function Filed(reporter: Id, category: Category, priority: Priority): Complaint {
    Complaint(reporter, category, priority, Open, None, None, None, [], 0, None, [])
  }

  // What an action makes of the ticket it is about.
  function Act(c: Complaint, action: Action): (Complaint, Outcome) {
    match action
    case ChangeStatus(_, role, user, to, resolution, now) => SetStatus(c, role, user, to, resolution, now)
    case DriverConfirms(_, user, now) => Confirm(c, user, now)
    case DriverReopens(_, user, reason, now) => Reopen(c, user, reason, now)
    case Update(_, role, user, resolution, note, priority, now) =>
      Annotate(c, role, user, resolution, note, priority, now)
    case Reassign(_, role, user, assignee, visible) => Assign(c, role, user, assignee, visible)
    case File(_, _, _) => (c, Done)
    case Sweep(now) => (AutoClose(c, now), Done)
  }

  function Next(complaints: seq<Complaint>, action: Action): seq<Complaint> {
    match action
    case File(reporter, category, initial) => complaints + [Filed(reporter, category, initial)]
    case Sweep(now) => SweepAll(complaints, now)
    case _ =>
      if action.c < |complaints| then complaints[action.c := Act(complaints[action.c], action).0] else complaints
  }

  function Run(actions: seq<Action>): seq<Complaint> {
    if actions == [] then [] else Next(Run(actions[..|actions| - 1]), actions[|actions| - 1])
  }

  /* -------------------------------- audit trail ------------------------------ */

  // A path of legal moves from open to where the ticket stands.
  ghost predicate Path(history: seq<Entry>, status: Status) {
    && (if history == [] then status == Open else history[0].from == Open && history[|history| - 1].to == status)
    && (forall i, j :: 0 <= i < |history| && j == i + 1 && j < |history| ==> history[i].to == history[j].from)
  }

  function Reopens(history: seq<Entry>): nat {
    if history == [] then 0
    else
      var e := history[|history| - 1];
      Reopens(history[..|history| - 1]) + if e.from == Resolved && e.to == Open then 1 else 0
  }

  // A resolution, a close without one and a reopening by the driver all say why.
  predicate Explained(e: Entry) {
    e.to == Resolved || (e.to == Closed && e.from != Resolved) || (e.actor == Driver && e.to == Open) ==> Says(e.note)
  }

  // The sweep only closes what was left resolved for more than a week.
  ghost predicate Waited(history: seq<Entry>) {
    && (history != [] ==> history[0].actor != System)
    && (forall i, j :: 0 <= i < |history| && j == i + 1 && j < |history| && history[j].actor == System ==>
          history[i].to == Resolved && history[j].at - history[i].at > AUTO_CLOSE_AFTER_MS)
  }

  predicate ClosedFromResolved(c: Complaint) {
    c.status == Closed && c.history != [] && c.history[|c.history| - 1].from == Resolved
  }

  // Resolved since the move that resolved it, while that resolution stands.
  predicate ResolvedSince(c: Complaint) {
    var n := |c.history|;
    if c.status == Resolved then n >= 1 && c.resolvedAt == Some(c.history[n - 1].at) && c.resolvedBy.Some?
    else if ClosedFromResolved(c) then n >= 2 && c.resolvedAt == Some(c.history[n - 2].at) && c.resolvedBy.Some?
    else c.resolvedAt.None? && c.resolvedBy.None?
  }

  predicate EntrySound(category: Category, e: Entry) {
    Permitted(category, e.from, e.to, e.actor) && Explained(e)
  }

  ghost predicate Trail(category: Category, history: seq<Entry>, status: Status) {
    Path(history, status) && Waited(history) && forall i :: 0 <= i < |history| ==> EntrySound(category, history[i])
  }

  ghost predicate Audited(c: Complaint) {
    && Trail(c.category, c.history, c.status)
    && c.reopenCount == Reopens(c.history)
    && ResolvedSince(c)
    && (c.status == Resolved || c.status == Closed ==> Says(c.resolution))
  }

  // What no action takes back: the report, the history, and anything of a closed ticket.
  predicate Follows(c: Complaint, c': Complaint) {
    && c'.reporter == c.reporter && c'.category == c.category
    && c.history <= c'.history && c.notes <= c'.notes
    && (c.status == Closed ==> c' == c)
  }

  lemma PathExtends(history: seq<Entry>, status: Status, e: Entry)
    requires Path(history, status) && e.from == status
    ensures Path(history + [e], e.to)
    ensures Reopens(history + [e]) == Reopens(history) + if e.from == Resolved && e.to == Open then 1 else 0
  {
  }

  lemma WaitedExtends(history: seq<Entry>, e: Entry)
    requires Waited(history)
    requires e.actor == System ==>
               history != [] && history[|history| - 1].to == Resolved
               && e.at - history[|history| - 1].at > AUTO_CLOSE_AFTER_MS
    ensures Waited(history + [e])
  {
  }

  lemma TrailExtends(category: Category, history: seq<Entry>, status: Status, e: Entry)
    requires Trail(category, history, status) && e.from == status && EntrySound(category, e)
    requires e.actor == System ==>
               history != [] && history[|history| - 1].to == Resolved
               && e.at - history[|history| - 1].at > AUTO_CLOSE_AFTER_MS
    ensures Trail(category, history + [e], e.to)
    ensures Reopens(history + [e]) == Reopens(history) + if e.from == Resolved && e.to == Open then 1 else 0
  {
    PathExtends(history, status, e);
    WaitedExtends(history, e);
  }

  lemma ResolvedSinceMove(c: Complaint, to: Status, actor: Role, user: Option<Id>, note: Option<string>, at: int)
    requires ResolvedSince(c) && Permitted(c.category, c.status, to, actor) && (to == Resolved ==> user.Some?)
    ensures ResolvedSince(Move(c, to, actor, user, note, at))
  {
  }

  lemma MoveFollows(c: Complaint, to: Status, actor: Role, user: Option<Id>, note: Option<string>, at: int)
    requires Permitted(c.category, c.status, to, actor)
    ensures Follows(c, Move(c, to, actor, user, note, at))
  {
  }

  lemma MoveAudited(c: Complaint, to: Status, actor: Role, user: Option<Id>, note: Option<string>, at: int)
    requires Audited(c) && EntrySound(c.category, Entry(c.status, to, actor, user, note, at))
    requires actor == System ==> Overdue(c, at)
    requires to == Closed ==> c.status == Resolved
    requires to != Resolved
    ensures Audited(Move(c, to, actor, user, note, at)) && Follows(c, Move(c, to, actor, user, note, at))
  {
    ResolvedSinceMove(c, to, actor, user, note, at);
    MoveFollows(c, to, actor, user, note, at);
    TrailExtends(c.category, c.history, c.status, Entry(c.status, to, actor, user, note, at));
  }

  // Owner, priority, notes and the wording of a resolution are no part of the trail.
  lemma SameTrail(c: Complaint, c': Complaint)
    requires Audited(c) && c'.category == c.category && c'.status == c.status && c'.history == c.history
    requires c'.reopenCount == c.reopenCount && c'.resolvedAt == c.resolvedAt && c'.resolvedBy == c.resolvedBy
    requires c'.resolution == c.resolution || Says(c'.resolution)
    ensures Audited(c')
  {
  }

  // A move that concludes the ticket, with the words that conclude it already on it.
  lemma WordedAudited(c: Complaint, to: Status, actor: Role, user: Id, at: int)
    requires Audited(c) && Permitted(c.category, c.status, to, actor) && actor != System && Says(c.resolution)
    requires to == Resolved || (to == Closed && c.status != Resolved)
    ensures var c' := Move(c, to, actor, Some(user), c.resolution, at); Audited(c') && Follows(c, c')
  {
    ResolvedSinceMove(c, to, actor, Some(user), c.resolution, at);
    MoveFollows(c, to, actor, Some(user), c.resolution, at);
    TrailExtends(c.category, c.history, c.status, Entry(c.status, to, actor, Some(user), c.resolution, at));
  }

  lemma ConclusionAudited(c: Complaint, to: Status, actor: Role, user: Id, text: Option<string>, at: int)
    requires Audited(c) && Permitted(c.category, c.status, to, actor) && actor != System && Says(text)
    requires to == Resolved || (to == Closed && c.status != Resolved)
    ensures var c' := Move(c.(resolution := text), to, actor, Some(user), text, at); Audited(c') && Follows(c, c')
  {
    var worded := c.(resolution := text);
    SameTrail(c, worded);
    WordedAudited(worded, to, actor, user, at);
  }

  // What a staff move comes to: a conclusion with its words, or a plain move that may take ownership.
  lemma SetStatusMoves(c: Complaint, role: Role, user: Id, to: Status, resolution: Option<string>, now: int)
    ensures var c' := SetStatus(c, role, user, to, resolution, now).0;
            var text := if resolution.Some? then resolution else c.resolution;
            var moved := Move(c, to, role, Some(user), resolution, now);
            || c' == c
            || (Permitted(c.category, c.status, to, role) && role != System && role != Driver
                && if to == Resolved || (to == Closed && c.status != Resolved)
                   then Says(text) && (to == Closed ==> resolution.Some?)
                        && c' == Move(c.(resolution := text), to, role, Some(user), text, now)
                   else c' == moved.(owner := c'.owner))
  {
  }

  lemma SetStatusAudited(c: Complaint, c': Complaint, role: Role, user: Id, to: Status,
                         resolution: Option<string>, now: int)
    requires Audited(c) && c' == SetStatus(c, role, user, to, resolution, now).0
    ensures Audited(c') && Follows(c, c')
  {
    SetStatusMoves(c, role, user, to, resolution, now);
    if c' == c {
    } else if to == Resolved || (to == Closed && c.status != Resolved) {
      ConclusionAudited(c, to, role, user, if resolution.Some? then resolution else c.resolution, now);
    } else {
      MoveAudited(c, to, role, Some(user), resolution, now);
      SameTrail(Move(c, to, role, Some(user), resolution, now), c');
    }
  }

  lemma DriverAudited(c: Complaint, action: Action)
    requires Audited(c) && (action.DriverConfirms? || action.DriverReopens?)
    ensures Audited(Act(c, action).0) && Follows(c, Act(c, action).0)
  {
    if Act(c, action).1 == Done {
      if action.DriverConfirms? {
        MoveAudited(c, Closed, Driver, Some(action.user), Some(CONFIRMED_NOTE), action.now);
      } else {
        MoveAudited(c, Open, Driver, Some(action.user), Some(action.reason), action.now);
      }
    }
  }

  lemma QuietAudited(c: Complaint, action: Action)
    requires Audited(c) && (action.Update? || action.Reassign? || action.File?)
    ensures Audited(Act(c, action).0) && Follows(c, Act(c, action).0)
  {
    SameTrail(c, Act(c, action).0);
  }

  lemma ActAudited(c: Complaint, action: Action)
    requires Audited(c)
    ensures Audited(Act(c, action).0) && Follows(c, Act(c, action).0)
  {
    match action
    case ChangeStatus(_, role, user, to, resolution, now) =>
      SetStatusAudited(c, Act(c, action).0, role, user, to, resolution, now);
    case Sweep(now) =>
      if Overdue(c, now) {
        MoveAudited(c, Closed, System, None, Some(AUTO_CLOSE_NOTE), now);
      }
    case DriverConfirms(_, _, _) => DriverAudited(c, action);
    case DriverReopens(_, _, _, _) => DriverAudited(c, action);
    case _ => QuietAudited(c, action);
  }

  // An action changes at most the tickets it is about, and each as it says.
  lemma NextActs(complaints: seq<Complaint>, action: Action, i: nat)
    requires i < |complaints|
    ensures i < |Next(complaints, action)|
    ensures Next(complaints, action)[i] == complaints[i] || Next(complaints, action)[i] == Act(complaints[i], action).0
  {
  }

  lemma NextAudited(complaints: seq<Complaint>, action: Action)
    requires forall i :: 0 <= i < |complaints| ==> Audited(complaints[i])
    ensures var complaints' := Next(complaints, action);
            && |complaints| <= |complaints'|
            && (forall i :: 0 <= i < |complaints'| ==> Audited(complaints'[i]))
            && (forall i :: 0 <= i < |complaints| ==> Follows(complaints[i], complaints'[i]))
  {
    var complaints' := Next(complaints, action);
    forall i | 0 <= i < |complaints|
      ensures Audited(complaints'[i]) && Follows(complaints[i], complaints'[i])
    {
      NextActs(complaints, action, i);
      ActAudited(complaints[i], action);
    }
  }

  // In every run each ticket's history is a legal path to its status, made only by those who may;
  // reopenings are counted, the resolving time stands exactly while the resolution does, a concluded
  // ticket says why, and the sweep waited its week.
  lemma {:induction false} AuditTrail(actions: seq<Action>)
    ensures forall i :: 0 <= i < |Run(actions)| ==> Audited(Run(actions)[i])
  {
    if actions != [] {
      AuditTrail(actions[..|actions| - 1]);
      NextAudited(Run(actions[..|actions| - 1]), actions[|actions| - 1]);
    }
  }

  // Nothing that was recorded is ever rewritten, and a closed ticket never changes again.
  lemma {:induction false} HistoryOnlyGrows(actions: seq<Action>, more: seq<Action>)
    ensures |Run(actions)| <= |Run(actions + more)|
    ensures forall i :: 0 <= i < |Run(actions)| ==> Follows(Run(actions)[i], Run(actions + more)[i])
  {
    if more == [] {
      assert actions + more == actions;
    } else {
      var n := |more| - 1;
      HistoryOnlyGrows(actions, more[..n]);
      assert (actions + more)[..|actions + more| - 1] == actions + more[..n];
      AuditTrail(actions + more[..n]);
      NextAudited(Run(actions + more[..n]), more[n]);
      forall i | 0 <= i < |Run(actions)| ensures Follows(Run(actions)[i], Run(actions + more)[i]) {
        FollowsOn(Run(actions)[i], Run(actions + more[..n])[i], Run(actions + more)[i]);
      }
    }
  }

  lemma FollowsOn(a: Complaint, b: Complaint, c: Complaint)
    requires Follows(a, b) && Follows(b, c)
    ensures Follows(a, c)
  {
  }

  // No operator ever concluded a payment or account complaint, closed any, or overturned a resolution.
  lemma OperatorsConcludeOnlyHardware(actions: seq<Action>, i: nat, k: nat)
    requires i < |Run(actions)| && k < |Run(actions)[i].history| && Run(actions)[i].history[k].actor == Operator
    ensures var c := Run(actions)[i];
            && c.history[k].to != Closed && !(c.history[k].from == Resolved && c.history[k].to == Open)
            && (c.history[k].to == Resolved ==> c.category != PaymentIssue && c.category != AccountIssue)
  {
    AuditTrail(actions);
    assert Audited(Run(actions)[i]);
  }

  // A staff move succeeds exactly when the table allows it to this role and it is explained; a refusal
  // says which of the three gates stood in the way, and changes nothing.
  lemma GatesInOrder(c: Complaint, role: Role, user: Id, to: Status, resolution: Option<string>, now: int)
    requires Staff(role) && c.status != to && (resolution.Some? ==> Says(resolution))
    ensures var (c', outcome) := SetStatus(c, role, user, to, resolution, now);
            var explained := (to == Resolved ==> Says(resolution) || Says(c.resolution))
                             && (to == Closed && c.status != Resolved ==> Says(resolution));
            && (outcome == Done <==> Permitted(c.category, c.status, to, role) && explained)
            && (outcome == Conflict <==> !Allowed(c.status, to))
            && (outcome == Forbidden <==> Allowed(c.status, to) && !Permitted(c.category, c.status, to, role))
            && (outcome == Invalid <==> Permitted(c.category, c.status, to, role) && !explained)
            && (outcome == Done ==> c'.status == to) && (outcome != Done ==> c' == c)
  {
  }

  // The sweep closes exactly the tickets left resolved for more than a week, and none is left over.
  lemma SweepClosesTheOverdue(complaints: seq<Complaint>, now: int)
    ensures var swept := SweepAll(complaints, now);
            forall i :: 0 <= i < |complaints| ==>
              && (if Overdue(complaints[i], now)
                  then swept[i].status == Closed && |swept[i].history| == |complaints[i].history| + 1
                       && swept[i].history[|complaints[i].history|].actor == System
                  else swept[i] == complaints[i])
              && !Overdue(swept[i], now)
  {
  }

  /* ---------------------------------- the desk ------------------------------- */

  // The service itself: a document is read, changed and saved, or the request is refused.
  class Desk {
    var complaints: seq<Complaint>

    constructor ()
      ensures complaints == []
    {
      complaints := [];
    }

    method Create(reporter: Id, category: Category, priority: Priority) returns (c: Id)
      modifies this
      ensures complaints == Next(old(complaints), File(reporter, category, priority))
      ensures c == |old(complaints)|
    {
      c := |complaints|;
      complaints := complaints + [Complaint(reporter, category, priority, Open, None, None, None, [], 0, None, [])];
    }

    // Every status change goes through here and leaves its entry.
    method ApplyTransition(c: Id, to: Status, actor: Role, user: Option<Id>, note: Option<string>, at: int)
      requires c < |complaints|
      modifies this
      ensures complaints == old(complaints)[c := Move(old(complaints)[c], to, actor, user, note, at)]
    {
      var document := complaints[c];
      var from := document.status;
      if to == Resolved {
        document := document.(resolvedBy := user, resolvedAt := Some(at));
      }
      if from == Resolved && to == Open {
        document := document.(resolvedBy := None, resolvedAt := None, reopenCount := document.reopenCount + 1);
      }
      document := document.(status := to, history := document.history + [Entry(from, to, actor, user, note, at)]);
      complaints := complaints[c := document];
    }

    method SetComplaintStatus(c: Id, role: Role, user: Id, to: Status, resolution: Option<string>, now: int)
      returns (outcome: Outcome)
      requires c < |complaints|
      modifies this
      ensures complaints == Next(old(complaints), ChangeStatus(c, role, user, to, resolution, now))
      ensures outcome == SetStatus(old(complaints)[c], role, user, to, resolution, now).1
    {
      var complaint := complaints[c];
      if !Staff(role) {
        return Forbidden;
      }
      if resolution == Some("") {
        return Invalid;
      }
      if complaint.status == to {
        return Done;
      }
      if !Allowed(complaint.status, to) {
        return Conflict;
      }
      var concludes := to == Resolved && !OperatorResolvable(complaint.category);
      if role == Operator && (AdminOnly(complaint.status, to) || concludes) {
        return Forbidden;
      }
      var note := resolution;
      if to == Resolved {
        note := if resolution.Some? then resolution else complaint.resolution;
        if note.None? || note.value == "" {
          return Invalid;
        }
        complaints := complaints[c := complaint.(resolution := note)];
      } else if to == Closed && complaint.status != Resolved {
        if note.None? {
          return Invalid;
        }
        complaints := complaints[c := complaint.(resolution := note)];
      }
      ApplyTransition(c, to, role, Some(user), note, now);
      // Picking a ticket up is taking it.
      if to == InProgress && complaints[c].owner.None? {
        complaints := complaints[c := complaints[c].(owner := Some(user))];
      }
      outcome := Done;
    }

    method ConfirmResolved(c: Id, user: Id, now: int) returns (outcome: Outcome)
      requires c < |complaints|
      modifies this
      ensures complaints == Next(old(complaints), DriverConfirms(c, user, now))
      ensures outcome == Confirm(old(complaints)[c], user, now).1
    {
      if user != complaints[c].reporter {
        return NotFound;
      }
      if complaints[c].status != Resolved {
        return Conflict;
      }
      ApplyTransition(c, Closed, Driver, Some(user), Some(CONFIRMED_NOTE), now);
      outcome := Done;
    }

    method ReopenComplaint(c: Id, user: Id, reason: string, now: int) returns (outcome: Outcome)
      requires c < |complaints|
      modifies this
      ensures complaints == Next(old(complaints), DriverReopens(c, user, reason, now))
      ensures outcome == Reopen(old(complaints)[c], user, reason, now).1
    {
      if |reason| < MIN_REASON {
        return Invalid;
      }
      if user != complaints[c].reporter {
        return NotFound;
      }
      if complaints[c].status != Resolved {
        return Conflict;
      }
      ApplyTransition(c, Open, Driver, Some(user), Some(reason), now);
      outcome := Done;
    }

    // Close what sat resolved for longer than a week; silence counts as agreement.
    method SweepResolvedComplaints(now: int) returns (closed: nat)
      modifies this
      ensures complaints == Next(old(complaints), Sweep(now))
      ensures closed == |set i: nat | i < |old(complaints)| && Overdue(old(complaints)[i], now)|
    {
      closed := 0;
      ghost var due: set<nat> := {};
      for i := 0 to |complaints|
        invariant |complaints| == |old(complaints)|
        invariant forall k :: 0 <= k < i ==> complaints[k] == AutoClose(old(complaints)[k], now)
        invariant forall k :: i <= k < |complaints| ==> complaints[k] == old(complaints)[k]
        invariant due == (set k: nat | k < i && Overdue(old(complaints)[k], now)) && closed == |due|
      {
        var complaint := complaints[i];
        if complaint.status == Resolved && complaint.resolvedAt.Some?
           && complaint.resolvedAt.value < now - AUTO_CLOSE_AFTER_MS
        {
          ApplyTransition(i, Closed, System, None, Some(AUTO_CLOSE_NOTE), now);
          due := due + {i};
          closed := closed + 1;
        }
      }
    }

    method UpdateComplaint(c: Id, role: Role, user: Id, resolution: Option<string>, note: Option<string>,
                           priority: Option<Priority>, now: int) returns (outcome: Outcome)
      requires c < |complaints|
      modifies this
      ensures complaints == Next(old(complaints), Update(c, role, user, resolution, note, priority, now))
      ensures outcome == Annotate(old(complaints)[c], role, user, resolution, note, priority, now).1
    {
      var complaint := complaints[c];
      if !Staff(role) {
        return Forbidden;
      }
      if resolution == Some("") || (note.Some? && |note.value| < MIN_NOTE)
         || (resolution.None? && note.None? && priority.None?)
      {
        return Invalid;
      }
      if complaint.status == Closed {
        return Conflict;
      }
      if priority.Some? {
        complaint := complaint.(priority := priority.value);
      }
      if resolution.Some? {
        complaint := complaint.(resolution := resolution);
      }
      if note.Some? {
        complaint := complaint.(notes := complaint.notes + [WorkNote(role, user, note.value, now)]);
      }
      complaints := complaints[c := complaint];
      outcome := Done;
    }

    method AssignComplaint(c: Id, role: Role, user: Id, assignee: Option<Id>, visible: bool) returns (outcome: Outcome)
      requires c < |complaints|
      modifies this
      ensures complaints == Next(old(complaints), Reassign(c, role, user, assignee, visible))
      ensures outcome == Assign(old(complaints)[c], role, user, assignee, visible).1
    {
      var complaint := complaints[c];
      if !Staff(role) {
        return Forbidden;
      }
      if complaint.status == Closed {
        return Conflict;
      }
      if role == Operator {
        var takingIt := assignee == Some(user);
        var releasingOwn := assignee.None? && complaint.owner == Some(user);
        if !takingIt && !releasingOwn {
          return Forbidden;
        }
      }
      if assignee.Some? && !visible {
        return Invalid;
      }
      complaints := complaints[c := complaint.(owner := assignee)];
      outcome := Done;
    }
  }

  /* ------------------------------ in progress by whom ------------------------ */

  predicate Unattended(c: Complaint) {
    c.status == InProgress && c.owner.None?
  }

  // A ticket in progress is put back in the pool by someone who may: an administrator, or the operator
  // who holds it.
  predicate Releases(c: Complaint, action: Action) {
    && c.status == InProgress && action.Reassign? && action.assignee.None?
    && Staff(action.role) && (action.role == Operator ==> c.owner == Some(action.user))
  }

  // A ticket comes to be in progress by nobody exactly when its owner is taken off it.
  lemma UnattendedExactlyWhenReleased(c: Complaint, action: Action)
    requires !Unattended(c)
    ensures Unattended(Act(c, action).0) <==> Releases(c, action)
  {
  }

  // The k-th action was about this ticket and released it.
  predicate ReleasedAt(actions: seq<Action>, k: nat, i: nat)
    requires k < |actions|
  {
    actions[k].Reassign? && actions[k].c == i < |Run(actions[..k])| && Releases(Run(actions[..k])[i], actions[k])
  }

  // The k-th action left this ticket's status and owner as they were.
  predicate LeavesPlace(actions: seq<Action>, k: nat, i: nat)
    requires k < |actions|
  {
    && i < |Run(actions[..k])| && i < |Run(actions[..k + 1])|
    && Run(actions[..k + 1])[i].status == Run(actions[..k])[i].status
    && Run(actions[..k + 1])[i].owner == Run(actions[..k])[i].owner
  }

  // The last action to touch this ticket's status or owner was such a release.
  ghost predicate LastReleasedAt(actions: seq<Action>, k: nat, i: nat) {
    k < |actions| && ReleasedAt(actions, k, i) && forall j: nat :: k < j < |actions| ==> LeavesPlace(actions, j, i)
  }

  lemma ReleaseUnattends(actions: seq<Action>, k: nat, i: nat)
    requires k < |actions| && ReleasedAt(actions, k, i)
    ensures i < |Run(actions[..k + 1])| && Unattended(Run(actions[..k + 1])[i])
  {
    assert actions[..k + 1][..k] == actions[..k];
  }

  lemma {:induction false} ReleasedStaysUnattended(actions: seq<Action>, k: nat, i: nat, j: nat)
    requires LastReleasedAt(actions, k, i) && k < j <= |actions|
    ensures i < |Run(actions[..j])| && Unattended(Run(actions[..j])[i])
  {
    if j == k + 1 {
      ReleaseUnattends(actions, k, i);
    } else {
      ReleasedStaysUnattended(actions, k, i, j - 1);
      assert LeavesPlace(actions, j - 1, i);
    }
  }

  // What happened before the last action looks the same from it as from the end.
  lemma LastReleasedEarlier(actions: seq<Action>, k: nat, i: nat)
    requires actions != [] && LastReleasedAt(actions[..|actions| - 1], k, i) && LeavesPlace(actions, |actions| - 1, i)
    ensures LastReleasedAt(actions, k, i)
  {
    var earlier := actions[..|actions| - 1];
    assert earlier[..k] == actions[..k];
    forall j: nat | k < j < |earlier| ensures LeavesPlace(actions, j, i) {
      assert LeavesPlace(earlier, j, i);
      assert earlier[..j] == actions[..j] && earlier[..j + 1] == actions[..j + 1];
    }
  }

  lemma {:induction false} UnattendedWasReleased(actions: seq<Action>, i: nat) returns (k: nat)
    requires i < |Run(actions)| && Unattended(Run(actions)[i])
    ensures LastReleasedAt(actions, k, i)
  {
    var n := |actions| - 1;
    var before := Run(actions[..n]);
    assert actions[..n + 1] == actions;
    if i < |before| && Unattended(before[i]) {
      k := UnattendedWasReleased(actions[..n], i);
      LastReleasedEarlier(actions, k, i);
    } else {
      k := n;
      if i < |before| {
        UnattendedExactlyWhenReleased(before[i], actions[n]);
      }
    }
  }

  // In every run: a ticket is in progress by nobody if and only if the last action to touch its status
  // or owner took its owner off it while it was in progress.
  lemma UnattendedExactlyWhenLastReleased(actions: seq<Action>, i: nat)
    requires i < |Run(actions)|
    ensures Unattended(Run(actions)[i]) <==> exists k: nat :: LastReleasedAt(actions, k, i)
  {
    assert actions[..|actions|] == actions;
    if Unattended(Run(actions)[i]) {
      var k := UnattendedWasReleased(actions, i);
    }
    if exists k: nat :: LastReleasedAt(actions, k, i) {
      var k: nat :| LastReleasedAt(actions, k, i);
      ReleasedStaysUnattended(actions, k, i, |actions|);
    }
  }

  // So a ticket can be in progress by nobody in particular: an operator picks it up and releases it.
  lemma InProgressByNobody(reporter: Id, user: Id, now: int)
    ensures var actions := [File(reporter, ChargerIssue, High), ChangeStatus(0, Operator, user, InProgress, None, now),
                            Reassign(0, Operator, user, None, true)];
            |Run(actions)| == 1 && Unattended(Run(actions)[0])
  {
    var a := [File(reporter, ChargerIssue, High), ChangeStatus(0, Operator, user, InProgress, None, now),
              Reassign(0, Operator, user, None, true)];
    assert a[..2] == [a[0], a[1]] && a[..2][..1] == [a[0]] && [a[0]][..0] == [];
    assert Run([a[0]]) == [Filed(reporter, ChargerIssue, High)];
    assert |Run(a[..2])| == 1 && Run(a[..2])[0].owner == Some(user);
  }
}
