// What each request on a support ticket comes to, field by field: who may, what is written, and what stays.

module Rulings {
  import opened Options
  import opened Complaints

  // The moves there are, and who may make each.
  lemma TableOfMoves(category: Category, from: Status, to: Status, actor: Role)
    ensures Allowed(from, to) <==> (from, to) in {(Open, InProgress), (Open, Closed), (InProgress, Open),
                                                  (InProgress, Resolved), (InProgress, Closed),
                                                  (Resolved, Open), (Resolved, Closed)}
    ensures actor == CpoAdmin || actor == SuperAdmin ==> (Permitted(category, from, to, actor) <==> Allowed(from, to))
    ensures actor == Operator ==>
              (Permitted(category, from, to, actor) <==>
               || (from, to) in {(Open, InProgress), (InProgress, Open)}
               || ((from, to) == (InProgress, Resolved)
                  && category in {ChargerIssue, SessionIssue, StationIssue, Other}))
    ensures actor == Driver ==>
            (Permitted(category, from, to, actor) <==> (from, to) in {(Resolved, Closed), (Resolved, Open)})
    ensures actor == System ==> (Permitted(category, from, to, actor) <==> (from, to) == (Resolved, Closed))
  {
  }

  // A new ticket is open, its reporter's, unowned, and has no history.
  lemma FilingEffect(complaints: seq<Complaint>, reporter: nat, category: Category, priority: Priority)
    ensures Next(complaints, File(reporter, category, priority))
            == complaints + [Complaint(reporter, category, priority, Open, None, None, None, [], 0, None, [])]
  {
  }

  // A request about one ticket answers for it alone.
  lemma OneTicket(complaints: seq<Complaint>, action: Action)
    requires !action.File? && !action.Sweep?
    ensures Next(complaints, action) == if action.c < |complaints|
                                        then complaints[action.c := Act(complaints[action.c], action).0] else complaints
  {
  }

  // The one entry that a move leaves behind, and what it does to who resolved the ticket and how often it was
  // reopened.
  predicate Moved(c: Complaint, c': Complaint, to: Status, actor: Role, user: Option<nat>, note: Option<string>,
      at: int) {
    && c'.status == to && c'.history == c.history + [Entry(c.status, to, actor, user, note, at)]
    && c'.reporter == c.reporter && c'.category == c.category && c'.priority == c.priority && c'.notes == c.notes
    && (if to == Resolved then c'.resolvedBy == user && c'.resolvedAt == Some(at)
        else if c.status == Resolved && to == Open then c'.resolvedBy.None? && c'.resolvedAt.None?
        else c'.resolvedBy == c.resolvedBy && c'.resolvedAt == c.resolvedAt)
    && c'.reopenCount == c.reopenCount + if c.status == Resolved && to == Open then 1 else 0
  }

  // A staff move that succeeds: it says what it was given to say, or in resolving what the draft says; that is
  // the resolution if it concludes the ticket and only a note if not; and picking an unowned ticket up takes it.
  lemma StaffMoveEffect(c: Complaint, role: Role, user: nat, to: Status, text: Option<string>, now: int)
    requires SetStatus(c, role, user, to, text, now).1 == Done && c.status != to
    ensures var c' := SetStatus(c, role, user, to, text, now).0;
            var said := if to == Resolved && text.None? then c.resolution else text;
            && Staff(role) && Moved(c, c', to, role, Some(user), said, now)
            && c'.resolution ==
               (if to == Resolved || (to == Closed && c.status != Resolved) then said else c.resolution)
            && c'.owner == (if to == InProgress && c.owner.None? then Some(user) else c.owner)
  {
  }

  // Before the gates: staff only, no blank text, and a ticket already there is left alone.
  lemma StaffMoveFirst(c: Complaint, role: Role, user: nat, to: Status, text: Option<string>, now: int)
    ensures var (c', outcome) := SetStatus(c, role, user, to, text, now);
            && (role == Driver || role == System ==> outcome == Forbidden && c' == c)
            && (Staff(role) && text == Some("") ==> outcome == Invalid && c' == c)
            && (Staff(role) && text != Some("") && c.status == to ==> outcome == Done && c' == c)
    ensures Staff(role) <==> role in {Operator, CpoAdmin, SuperAdmin}
  {
  }

  // Only its reporter can confirm a ticket, and only while it is resolved.
  lemma ConfirmEffect(c: Complaint, user: nat, now: int)
    ensures var (c', outcome) := Confirm(c, user, now);
            && (outcome == Done <==> user == c.reporter && c.status == Resolved)
            && (outcome == NotFound <==> user != c.reporter)
            && if outcome == Done then
                 && Moved(c, c', Closed, Driver, Some(user), Some("Driver confirmed the fix."), now)
                 && c'.resolution == c.resolution && c'.owner == c.owner
               else c' == c
  {
  }

  // Only its reporter can reopen one, in at least ten characters, which are what the history says.
  lemma ReopenEffect(c: Complaint, user: nat, reason: string, now: int)
    ensures var (c', outcome) := Reopen(c, user, reason, now);
            && (outcome == Done <==> |reason| >= 10 && user == c.reporter && c.status == Resolved)
            && (outcome == Invalid <==> |reason| < 10)
            && (outcome == NotFound <==> |reason| >= 10 && user != c.reporter)
            && if outcome == Done then
                 Moved(c, c', Open, Driver, Some(user), Some(reason), now)
                 && c'.resolution == c.resolution && c'.owner == c.owner
               else c' == c
  {
  }

  // Staff may set a priority, a draft and a note on a ticket that is not closed; each given is kept, each not
  // given stands, and notes are signed and added, never replaced.
  lemma AnnotateEffect(c: Complaint, role: Role, user: nat, draft: Option<string>, note: Option<string>,
                       priority: Option<Priority>, now: int)
    ensures var (c', outcome) := Annotate(c, role, user, draft, note, priority, now);
            var worded := draft != Some("") && (note.Some? ==> |note.value| >= 2)
                          && (draft.Some? || note.Some? || priority.Some?);
            && (outcome == Done <==> role in {Operator, CpoAdmin, SuperAdmin} && worded && c.status != Closed)
            && (outcome == Forbidden <==> role !in {Operator, CpoAdmin, SuperAdmin})
            && (outcome == Conflict <==> role in {Operator, CpoAdmin, SuperAdmin} && worded && c.status == Closed)
            && if outcome == Done then
                 c' == c.(priority := if priority.Some? then priority.value else c.priority,
                          resolution := if draft.Some? then draft else c.resolution,
                          notes := c.notes + if note.Some? then [WorkNote(role, user, note.value, now)] else [])
               else c' == c
  {
    assert c.notes + [] == c.notes;
  }

  // An administrator may give a ticket that is not closed to anyone who can see it, or to nobody; an operator
  // may only take it, or give up one of their own.
  lemma AssignEffect(c: Complaint, role: Role, user: nat, assignee: Option<nat>, visible: bool)
    ensures var (c', outcome) := Assign(c, role, user, assignee, visible);
            var may := role in {CpoAdmin, SuperAdmin}
                       || (role == Operator && (assignee == Some(user) || (assignee.None? && c.owner == Some(user))));
            && (outcome == Done <==> may && c.status != Closed && (assignee.Some? ==> visible))
            && (outcome == Conflict <==> role in {Operator, CpoAdmin, SuperAdmin} && c.status == Closed)
            && (outcome == Invalid <==> may && c.status != Closed && assignee.Some? && !visible)
            && c' == if outcome == Done then c.(owner := assignee) else c
  {
  }

  // The sweep closes exactly what was resolved more than seven days ago, in nobody's name.
  lemma SweepEffect(complaints: seq<Complaint>, now: int)
    ensures var complaints' := Next(complaints, Sweep(now));
            && |complaints'| == |complaints|
            && forall i :: 0 <= i < |complaints| ==>
                 var c, c' := complaints[i], complaints'[i];
                 if c.status == Resolved && c.resolvedAt.Some? && c.resolvedAt.value + 604_800_000 < now then
                   && Moved(c, c', Closed, System, None, Some(AUTO_CLOSE_NOTE), now)
                   && c'.resolution == c.resolution && c'.owner == c.owner
                 else c' == c
  {
  }
}
