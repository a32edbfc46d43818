// What a charger says about itself, over whole runs: its standing status, since when it has been
// down, and how many times its faults were acted on.

module FaultEpisodes {
  import opened Options
  import opened Sessions

  datatype Report = Report(status: Hardware, at: int)

  predicate Reporting(e: Event, charger: nat) {
    e.ChargerReport? && e.charger == charger && e.reported.Some?
  }

  // The recognised connector-0 messages of one charger, in order of arrival.
  function Reports(events: seq<Event>, charger: nat): seq<Report> {
    if events == [] then []
    else
      var n := |events| - 1;
      var before := Reports(events[..n], charger);
      if Reporting(events[n], charger) then before + [Report(events[n].reported.value, events[n].now)] else before
  }

  // The first message of the current maximal run of one status.
  predicate BeginsRun(reports: seq<Report>, run: nat) {
    && run < |reports|
    && (forall i :: run <= i < |reports| ==> reports[i].status == reports[|reports| - 1].status)
    && (run > 0 ==> reports[run - 1].status != reports[|reports| - 1].status)
  }

  // The first message of the current maximal stretch out of operation.
  predicate BeginsStretch(reports: seq<Report>, start: nat) {
    && start < |reports|
    && (forall i :: start <= i < |reports| ==> reports[i].status != Operative)
    && (start > 0 ==> reports[start - 1].status == Operative)
  }

  // As a charger is first recorded.
  predicate NeverReported(w: World, charger: nat) {
    charger < |w.chargers| && w.chargers[charger].hardware == Operative && w.chargers[charger].faultReportedAt.None?
  }

  // The record after a recognised message: a repeat writes nothing.
  function Recorded(c: Charger, report: Report): Charger {
    if c.hardware == report.status then c
    else c.(hardware := report.status, faultReportedAt := if report.status == Operative then None else Some(report.at))
  }

  function RecordAll(c: Charger, reports: seq<Report>): Charger {
    if reports == [] then c else Recorded(RecordAll(c, reports[..|reports| - 1]), reports[|reports| - 1])
  }

  // Only a charger's own recognised report writes to its record.
  lemma OnlyReportsWrite(w: World, e: Event, charger: nat)
    requires charger < |w.chargers|
    ensures |Next(w, e).chargers| == |w.chargers|
    ensures Next(w, e).chargers[charger]
            == if Reporting(e, charger) then Recorded(w.chargers[charger], Report(e.reported.value, e.now))
               else w.chargers[charger]
  {
  }

  lemma {:induction false} RunRecordsReports(w: World, events: seq<Event>, charger: nat)
    requires charger < |w.chargers|
    ensures |Run(w, events).chargers| == |w.chargers|
    ensures Run(w, events).chargers[charger] == RecordAll(w.chargers[charger], Reports(events, charger))
  {
    if events != [] {
      var n := |events| - 1;
      RunRecordsReports(w, events[..n], charger);
      OnlyReportsWrite(Run(w, events[..n]), events[n], charger);
      var before := Reports(events[..n], charger);
      assert Reporting(events[n], charger) ==> Reports(events, charger)[..|before|] == before;
    }
  }

  lemma {:induction false} LastRunStands(c: Charger, reports: seq<Report>) returns (run: nat)
    requires c.hardware == Operative && c.faultReportedAt.None? && reports != []
    ensures var after := RecordAll(c, reports);
            && BeginsRun(reports, run) && after.hardware == reports[|reports| - 1].status
            && after.faultReportedAt == if after.hardware == Operative then None else Some(reports[run].at)
  {
    var n := |reports| - 1;
    if n == 0 {
      assert reports[..0] == [];
      run := 0;
    } else {
      run := LastRunStands(c, reports[..n]);
      if reports[n].status != reports[n - 1].status {
        run := n;
      }
    }
  }

  // The standing status is the last recognised one, and a charger out of operation is down since the
  // first message of the current run of that very status, however often it repeated itself.
  lemma StandingStatus(w: World, events: seq<Event>, charger: nat) returns (run: nat)
    requires NeverReported(w, charger)
    ensures var reports := Reports(events, charger);
            && |Run(w, events).chargers| == |w.chargers|
            && var after := Run(w, events).chargers[charger];
            if reports == [] then after == w.chargers[charger]
            else
              && BeginsRun(reports, run) && after.hardware == reports[run].status
              && after.faultReportedAt == if after.hardware == Operative then None else Some(reports[run].at)
  {
    RunRecordsReports(w, events, charger);
    run := 0;
    if Reports(events, charger) != [] {
      run := LastRunStands(w.chargers[charger], Reports(events, charger));
    }
  }

  /* --------------------------------- reactions ------------------------------- */

  // The k-th event is a report that the machine was not already known to have failed.
  predicate Reacts(w: World, events: seq<Event>, k: nat, charger: nat)
    requires k < |events|
  {
    && Reporting(events[k], charger) && events[k].reported == Some(HardwareFaulted)
    && charger < |Run(w, events[..k]).chargers| && Run(w, events[..k]).chargers[charger].hardware != HardwareFaulted
  }

  function Reactions(w: World, events: seq<Event>, charger: nat): set<nat> {
    set k: nat | k < |events| && Reacts(w, events, k, charger)
  }

  // A maximal run of Faulted messages begins here.
  predicate BeginsFault(reports: seq<Report>, i: nat)
    requires i < |reports|
  {
    reports[i].status == HardwareFaulted && (i == 0 || reports[i - 1].status != HardwareFaulted)
  }

  function FaultRuns(reports: seq<Report>): set<nat> {
    set i: nat | i < |reports| && BeginsFault(reports, i)
  }

  lemma ReactsEarlier(w: World, events: seq<Event>, k: nat, charger: nat)
    requires k < |events| - 1
    ensures Reacts(w, events, k, charger) == Reacts(w, events[..|events| - 1], k, charger)
  {
    assert events[..|events| - 1][..k] == events[..k];
  }

  lemma CountOneMore(before: set<nat>, after: set<nat>, n: nat, hit: bool)
    requires n !in before && forall k: nat :: k in after <==> k in before || (hit && k == n)
    ensures |after| == |before| + if hit then 1 else 0
  {
    var latest := if hit then {n} else {};
    assert after == before + latest;
  }

  lemma ReactionsStep(w: World, events: seq<Event>, charger: nat)
    requires events != []
    ensures var n := |events| - 1;
            |Reactions(w, events, charger)|
            == |Reactions(w, events[..n], charger)| + if Reacts(w, events, n, charger) then 1 else 0
  {
    var n := |events| - 1;
    forall k: nat | k < n ensures Reacts(w, events, k, charger) == Reacts(w, events[..n], k, charger) {
      ReactsEarlier(w, events, k, charger);
    }
    CountOneMore(Reactions(w, events[..n], charger), Reactions(w, events, charger), n, Reacts(w, events, n, charger));
  }

  lemma FaultRunsStep(reports: seq<Report>, report: Report)
    ensures |FaultRuns(reports + [report])|
            == |FaultRuns(reports)|
               + if report.status == HardwareFaulted
                 && (reports == [] || reports[|reports| - 1].status != HardwareFaulted)
                 then 1 else 0
  {
    var more := reports + [report];
    forall i: nat | i < |reports| ensures BeginsFault(more, i) == BeginsFault(reports, i) {
    }
    CountOneMore(FaultRuns(reports), FaultRuns(more), |reports|, BeginsFault(more, |reports|));
  }

  // A machine's fault is acted on exactly once for each maximal run of Faulted messages.
  lemma {:induction false} OneReactionPerFault(w: World, events: seq<Event>, charger: nat)
    requires NeverReported(w, charger)
    ensures |Reactions(w, events, charger)| == |FaultRuns(Reports(events, charger))|
  {
    if events != [] {
      var n := |events| - 1;
      OneReactionPerFault(w, events[..n], charger);
      var _ := StandingStatus(w, events[..n], charger);
      ReactionsStep(w, events, charger);
      var before := Reports(events[..n], charger);
      if Reporting(events[n], charger) {
        FaultRunsStep(before, Report(events[n].reported.value, events[n].now));
      }
    }
  }

  // Each reaction fails what that machine was running and nothing else; a report that is not one
  // ends no session and moves no plug.
  lemma ReactionsEndSessions(w: World, events: seq<Event>, k: nat, charger: nat)
    requires k < |events| && Reporting(events[k], charger) && charger < |Run(w, events[..k]).chargers|
    ensures var before, after := Run(w, events[..k]), Run(w, events[..k + 1]);
            if Reacts(w, events, k, charger) then
              && |after.sessions| == |before.sessions|
              && (forall i :: 0 <= i < |after.sessions| && after.sessions[i].charger == charger ==>
                    !Open(after.sessions[i]))
              && (forall p :: 0 <= p < |after.plugs| && after.plugs[p].charger == charger ==>
                    !InFlight(after.plugs[p].status))
              && (forall i :: 0 <= i < |after.sessions| && before.sessions[i].charger != charger ==>
                    after.sessions[i] == before.sessions[i])
            else after.sessions == before.sessions && after.plugs == before.plugs
  {
    assert events[..k + 1][..k] == events[..k];
    assert Run(w, events[..k + 1]) == Next(Run(w, events[..k]), events[k]);
  }

  /* ------------------------------ how long down ------------------------------ */

  // Never switched between faulted and unavailable since this message.
  predicate Uniform(reports: seq<Report>, start: nat)
    requires start < |reports|
  {
    forall i :: start <= i < |reports| ==> reports[i].status == reports[start].status
  }

  // Where the last run of one status begins, against where the last stretch out of operation begins.
  lemma RunWithinStretch(reports: seq<Report>, start: nat, run: nat)
    requires BeginsStretch(reports, start) && BeginsRun(reports, run)
    ensures start <= run && (Uniform(reports, start) <==> run == start)
  {
  }

  predicate ClockMovesOn(reports: seq<Report>) {
    forall i, j :: 0 <= i < j < |reports| ==> reports[i].at < reports[j].at
  }

  // Since when the charger is down is the start of the whole stretch out of operation exactly when
  // it never switched between faulted and unavailable during it, as long as the clock moves on.
  lemma DownSinceStretchStart(w: World, events: seq<Event>, charger: nat, start: nat)
    requires NeverReported(w, charger) && BeginsStretch(Reports(events, charger), start)
    ensures var reports := Reports(events, charger);
            && charger < |Run(w, events).chargers|
            && var since := Run(w, events).chargers[charger].faultReportedAt;
            && (Uniform(reports, start) ==> since == Some(reports[start].at))
            && (ClockMovesOn(reports) ==> (since == Some(reports[start].at) <==> Uniform(reports, start)))
  {
    var run := StandingStatus(w, events, charger);
    RunWithinStretch(Reports(events, charger), start, run);
  }

  // A fault that turns into a withdrawal restarts the clock: down since 10, recorded as 20.
  lemma SwitchRestartsTheClock(company: nat)
    ensures var w := World([], [], [Charger(company, Operative, None)], [], 1000);
            var events := [ChargerReport(0, Some(HardwareFaulted), 10), ChargerReport(0, Some(OutOfService), 20)];
            |Run(w, events).chargers| == 1 && Run(w, events).chargers[0].faultReportedAt == Some(20)
  {
    var w := World([], [], [Charger(company, Operative, None)], [], 1000);
    var events := [ChargerReport(0, Some(HardwareFaulted), 10), ChargerReport(0, Some(OutOfService), 20)];
    assert events[..1] == [events[0]] && [events[0]][..0] == [];
    assert Run(w, [events[0]]).chargers == [Charger(company, HardwareFaulted, Some(10))];
  }
}
