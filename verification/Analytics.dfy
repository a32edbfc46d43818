// The analytics endpoints as folds over one snapshot of the rows: totals, zero-filled daily series
// and the per-station breakdown, each grouped its own way, all over the same rows.

module Analytics {
  import opened Options
  import opened Sums
  import opened Days
  import opened Grouping
  import Sessions
  import Settlement

  type Id = nat

  // Energy in hundredths of a watt-hour.
  datatype SessionRow = SessionRow(
    company: Id, station: Id, status: Sessions.Status, startedAt: Option<int>, energy: nat)

  datatype PaymentRow = PaymentRow(
    company: Option<Id>, purpose: Settlement.Purpose, status: Settlement.PaymentStatus,
    amount: nat, paidAt: Option<int>, session: Option<Id>)

  datatype Snapshot = Snapshot(sessions: seq<SessionRow>, payments: seq<PaymentRow>, stations: seq<Id>)

  // None is a platform administrator, who sees every company.
  datatype Scope = Scope(company: Option<Id>, range: Range)

  datatype SessionTotals = SessionTotals(total: int, byStatus: map<Sessions.Status, int>, energy: int)
  datatype RevenueTotals = RevenueTotals(revenue: int, payments: int)
  datatype StationRow = StationRow(station: Id, sessions: int, energy: int, revenue: int)

  const SESSION_STATUSES: seq<Sessions.Status> :=
    [Sessions.Initiating, Sessions.Active, Sessions.Stopping, Sessions.Completed, Sessions.Failed]

  /* ------------------------------- the matches ------------------------------- */

  predicate InWindow(at: Option<int>, range: Range) {
    at.Some? && range.from <= at.value <= range.to
  }

  // Anchored on when the charge began, which leaves out what never began.
  function Started(scope: Scope): SessionRow -> bool {
    (r: SessionRow) => (scope.company.None? || scope.company == Some(r.company)) && InWindow(r.startedAt, scope.range)
  }

  // Revenue is paid session debits, anchored on when the money moved; a recharge is a deposit.
  function Earned(scope: Scope): PaymentRow -> bool {
    (r: PaymentRow) =>
      && (scope.company.None? || r.company == scope.company)
      && r.status == Settlement.Paid && r.purpose == Settlement.SessionCollection && InWindow(r.paidAt, scope.range)
  }

  function StatusOf(): SessionRow -> Sessions.Status {
    (r: SessionRow) => r.status
  }

  function StationOf(): SessionRow -> Id {
    (r: SessionRow) => r.station
  }

  function EnergyOf(): SessionRow -> int {
    (r: SessionRow) => r.energy
  }

  function StartDay(): SessionRow -> int {
    (r: SessionRow) => if r.startedAt.Some? then DayOf(r.startedAt.value) else 0
  }

  function PaidDay(): PaymentRow -> int {
    (r: PaymentRow) => if r.paidAt.Some? then DayOf(r.paidAt.value) else 0
  }

  function AmountOf(): PaymentRow -> int {
    (r: PaymentRow) => r.amount
  }

  function Everything(): PaymentRow -> int {
    (_: PaymentRow) => 0
  }

  /* --------------------------------- totals ---------------------------------- */

  // Sessions and energy from the groups by status, starting from a zero for every status.
  method GetSessionTotals(snapshot: Snapshot, scope: Scope) returns (totals: SessionTotals)
    ensures var rows := Select(snapshot.sessions, Started(scope));
            && totals.total == |rows| && totals.energy == Sum(rows, EnergyOf())
            && (forall s :: s in totals.byStatus && totals.byStatus[s] == Sum(rows, Keyed(StatusOf(), s, One())))
    ensures Sum(SESSION_STATUSES, Cell(totals.byStatus)) == totals.total
  {
    ghost var selected := Select(snapshot.sessions, Started(scope));
    var rows := GroupBy(Select(snapshot.sessions, Started(scope)), StatusOf(), EnergyOf());
    var byStatus := map s | s in SESSION_STATUSES :: 0;
    var total, energy := 0, 0;
    EveryStatusIsListed();
    OneGroupPerKey(selected, StatusOf(), EnergyOf());
    for i := 0 to |rows|
      invariant total == Sum(rows[..i], Count()) && energy == Sum(rows[..i], Amount())
      invariant forall s :: s in byStatus && byStatus[s] == At(rows[..i], s).count
    {
      assert rows[..i + 1][..i] == rows[..i];
      ghost var before := byStatus;
      byStatus := byStatus[rows[i].key := rows[i].count];
      forall s: Sessions.Status ensures s in byStatus && byStatus[s] == At(rows[..i + 1], s).count {
        assert s in before && before[s] == At(rows[..i], s).count;
        AtOneMore(rows[..i + 1], s);
      }
      total := total + rows[i].count;
      energy := energy + rows[i].amount;
    }
    assert rows[..|rows|] == rows;
    totals := SessionTotals(total, byStatus, energy);
    GroupsHoldEveryRow(selected, StatusOf(), EnergyOf());
    forall s ensures byStatus[s] == Sum(selected, Keyed(StatusOf(), s, One())) {
      GroupIsKeyed(selected, StatusOf(), EnergyOf(), s);
    }
    StatusesAddUp(selected, byStatus);
  }

  lemma EveryStatusIsListed()
    ensures forall s: Sessions.Status :: s in SESSION_STATUSES
  {
    forall s: Sessions.Status ensures s in SESSION_STATUSES {
      var i := match s
        case Initiating => 0
        case Active => 1
        case Stopping => 2
        case Completed => 3
        case Failed => 4;
      assert SESSION_STATUSES[i] == s;
    }
  }

  function Cell(byStatus: map<Sessions.Status, int>): Sessions.Status -> int {
    (s: Sessions.Status) => if s in byStatus then byStatus[s] else 0
  }

  lemma StatusesAddUp(rows: seq<SessionRow>, byStatus: map<Sessions.Status, int>)
    requires forall s :: s in byStatus && byStatus[s] == Sum(rows, Keyed(StatusOf(), s, One()))
    ensures Sum(SESSION_STATUSES, Cell(byStatus)) == |rows|
  {
    EveryStatusIsListed();
    SumCongruent(SESSION_STATUSES, Cell(byStatus), PerKey(rows, StatusOf(), One()));
    KeysPartitionRows(rows, StatusOf(), One(), SESSION_STATUSES);
    SumCongruent(rows, Listed(StatusOf(), SESSION_STATUSES, One()), One());
    CountIsLength(rows);
  }

  function Keys<K>(groups: seq<Group<K>>): (keys: seq<K>)
    ensures |keys| == |groups| && forall i :: 0 <= i < |groups| ==> keys[i] == groups[i].key
  {
    seq(|groups|, i requires 0 <= i < |groups| => groups[i].key)
  }

  lemma KeysOfCons<K>(first: Group<K>, rest: seq<Group<K>>)
    ensures Keys([first] + rest) == [first.key] + Keys(rest)
  {
  }

  // Counting a row in touches its own key's group, or opens one at the end.
  lemma {:induction false} KeysOfBump<K>(groups: seq<Group<K>>, key: K, amount: int)
    ensures Keys(Bump(groups, key, amount)) == if key in Keys(groups) then Keys(groups) else Keys(groups) + [key]
  {
    if groups != [] {
      KeysOfCons(groups[0], groups[1..]);
      assert groups == [groups[0]] + groups[1..];
      if groups[0].key == key {
        KeysOfCons(Group(key, groups[0].count + 1, groups[0].amount + amount), groups[1..]);
      } else {
        KeysOfBump(groups[1..], key, amount);
        KeysOfCons(groups[0], Bump(groups[1..], key, amount));
      }
    }
  }

  lemma {:induction false} OneGroupPerKey<R, K>(rows: seq<R>, key: R -> K, amount: R -> int)
    ensures Distinct(Keys(GroupBy(rows, key, amount)))
  {
    if rows != [] {
      var n := |rows| - 1;
      OneGroupPerKey(rows[..n], key, amount);
      KeysOfBump(GroupBy(rows[..n], key, amount), key(rows[n]), amount(rows[n]));
    }
  }

  // The last group of a list without repeated keys decides its own key and no other.
  lemma {:induction false} AtOneMore<K>(groups: seq<Group<K>>, k: K)
    requires groups != [] && Distinct(Keys(groups))
    ensures var n := |groups| - 1;
            At(groups, k) == if k == groups[n].key then groups[n] else At(groups[..n], k)
  {
    if |groups| > 1 {
      assert groups[1..][..|groups| - 2] == groups[..|groups| - 1][1..];
      AtOneMore(groups[1..], k);
    }
  }

  function GetRevenueTotals(snapshot: Snapshot, scope: Scope): RevenueTotals {
    var row := At(GroupBy(Select(snapshot.payments, Earned(scope)), Everything(), AmountOf()), 0);
    RevenueTotals(row.amount, row.count)
  }

  lemma RevenueTotalsHoldEveryRow(snapshot: Snapshot, scope: Scope)
    ensures var rows := Select(snapshot.payments, Earned(scope));
            GetRevenueTotals(snapshot, scope) == RevenueTotals(Sum(rows, AmountOf()), |rows|)
  {
    var rows := Select(snapshot.payments, Earned(scope));
    GroupIsKeyed(rows, Everything(), AmountOf(), 0);
    SumCongruent(rows, Keyed(Everything(), 0, AmountOf()), AmountOf());
    SumCongruent(rows, Keyed(Everything(), 0, One()), One());
    CountIsLength(rows);
  }

  /* ------------------------------- daily series ------------------------------ */

  lemma DaysAreDistinct(first: int, last: int)
    ensures Distinct(DaysBetween(first, last))
  {
  }

  // A day in the window is on the axis of its series.
  lemma OnAxis(range: Range, at: int)
    requires range.from <= at <= range.to
    ensures DayOf(at) in DaysBetween(FirstDay(range), LastDay(range))
  {
    var days := DaysBetween(FirstDay(range), LastDay(range));
    assert days[DayOf(at) - FirstDay(range)] == DayOf(at);
  }

  // Every session of the totals is on exactly one day of the series, with all its energy.
  method GetSessionSeries(snapshot: Snapshot, scope: Scope) returns (points: seq<Group<int>>, totals: SessionTotals)
    ensures |points| == |DaysBetween(FirstDay(scope.range), LastDay(scope.range))|
    ensures forall i :: 0 <= i < |points| ==>
              var rows := Select(snapshot.sessions, Started(scope));
              && points[i].key == FirstDay(scope.range) + i
              && points[i].count == Sum(rows, Keyed(StartDay(), points[i].key, One()))
              && points[i].amount == Sum(rows, Keyed(StartDay(), points[i].key, EnergyOf()))
    ensures totals.total == |Select(snapshot.sessions, Started(scope))|
    ensures Sum(points, Count()) == totals.total && Sum(points, Amount()) == totals.energy
  {
    totals := GetSessionTotals(snapshot, scope);
    var days := EachUtcDay(scope.range);
    var rows := GroupBy(Select(snapshot.sessions, Started(scope)), StartDay(), EnergyOf());
    points := Fill(rows, days);
    SessionDaysPartition(snapshot, scope);
    forall i | 0 <= i < |points|
      ensures points[i].count == Sum(Select(snapshot.sessions, Started(scope)), Keyed(StartDay(), points[i].key, One()))
      ensures points[i].amount
              == Sum(Select(snapshot.sessions, Started(scope)), Keyed(StartDay(), points[i].key, EnergyOf()))
    {
      GroupIsKeyed(Select(snapshot.sessions, Started(scope)), StartDay(), EnergyOf(), days[i]);
    }
  }

  lemma SessionDaysPartition(snapshot: Snapshot, scope: Scope)
    ensures var rows := Select(snapshot.sessions, Started(scope));
            var days := DaysBetween(FirstDay(scope.range), LastDay(scope.range));
            var points := Fill(GroupBy(rows, StartDay(), EnergyOf()), days);
            Sum(points, Count()) == |rows| && Sum(points, Amount()) == Sum(rows, EnergyOf())
  {
    var rows := Select(snapshot.sessions, Started(scope));
    var days := DaysBetween(FirstDay(scope.range), LastDay(scope.range));
    DaysAreDistinct(FirstDay(scope.range), LastDay(scope.range));
    SeriesCountsItsAxis(rows, StartDay(), EnergyOf(), days);
    forall i | 0 <= i < |rows| ensures StartDay()(rows[i]) in days {
      OnAxis(scope.range, rows[i].startedAt.value);
    }
    SumCongruent(rows, Listed(StartDay(), days, One()), One());
    SumCongruent(rows, Listed(StartDay(), days, EnergyOf()), EnergyOf());
    CountIsLength(rows);
  }

  // Every payment of the totals is on exactly one day of the series, with all its money.
  method GetRevenueSeries(snapshot: Snapshot, scope: Scope) returns (points: seq<Group<int>>, totals: RevenueTotals)
    ensures |points| == |DaysBetween(FirstDay(scope.range), LastDay(scope.range))|
    ensures forall i :: 0 <= i < |points| ==>
              && points[i].key == FirstDay(scope.range) + i
              && points[i].amount
                 == Sum(Select(snapshot.payments, Earned(scope)), Keyed(PaidDay(), points[i].key, AmountOf()))
    ensures totals.revenue == Sum(Select(snapshot.payments, Earned(scope)), AmountOf())
    ensures Sum(points, Amount()) == totals.revenue && Sum(points, Count()) == totals.payments
  {
    totals := GetRevenueTotals(snapshot, scope);
    var days := EachUtcDay(scope.range);
    var rows := GroupBy(Select(snapshot.payments, Earned(scope)), PaidDay(), AmountOf());
    points := Fill(rows, days);
    RevenueTotalsHoldEveryRow(snapshot, scope);
    RevenueDaysPartition(snapshot, scope);
    forall i | 0 <= i < |points|
      ensures points[i].amount
              == Sum(Select(snapshot.payments, Earned(scope)), Keyed(PaidDay(), points[i].key, AmountOf()))
    {
      GroupIsKeyed(Select(snapshot.payments, Earned(scope)), PaidDay(), AmountOf(), days[i]);
    }
  }

  lemma RevenueDaysPartition(snapshot: Snapshot, scope: Scope)
    ensures var rows := Select(snapshot.payments, Earned(scope));
            var days := DaysBetween(FirstDay(scope.range), LastDay(scope.range));
            var points := Fill(GroupBy(rows, PaidDay(), AmountOf()), days);
            Sum(points, Amount()) == Sum(rows, AmountOf()) && Sum(points, Count()) == |rows|
  {
    var rows := Select(snapshot.payments, Earned(scope));
    var days := DaysBetween(FirstDay(scope.range), LastDay(scope.range));
    DaysAreDistinct(FirstDay(scope.range), LastDay(scope.range));
    SeriesCountsItsAxis(rows, PaidDay(), AmountOf(), days);
    forall i | 0 <= i < |rows| ensures PaidDay()(rows[i]) in days {
      OnAxis(scope.range, rows[i].paidAt.value);
    }
    SumCongruent(rows, Listed(PaidDay(), days, One()), One());
    SumCongruent(rows, Listed(PaidDay(), days, AmountOf()), AmountOf());
    CountIsLength(rows);
  }

  /* ----------------------------- station breakdown --------------------------- */

  // A payment knows its session, and only through it its station.
  function HasSession(sessions: seq<SessionRow>): PaymentRow -> bool {
    (r: PaymentRow) => r.session.Some? && r.session.value < |sessions|
  }

  function PaidStation(sessions: seq<SessionRow>): PaymentRow -> Id {
    (r: PaymentRow) => if r.session.Some? && r.session.value < |sessions| then sessions[r.session.value].station else 0
  }

  predicate HasGroup<K(==)>(groups: seq<Group<K>>, k: K) {
    exists i :: 0 <= i < |groups| && groups[i].key == k
  }

  function RowOf(id: Id, usage: seq<Group<Id>>, revenue: seq<Group<Id>>): StationRow {
    StationRow(id, At(usage, id).count, At(usage, id).amount, At(revenue, id).amount)
  }

  // The stations found for either key set, before they are sorted and cut to the limit.
  function Breakdown(stations: seq<Id>, usage: seq<Group<Id>>, revenue: seq<Group<Id>>): seq<StationRow> {
    if stations == [] then []
    else
      var n := |stations| - 1;
      var before := Breakdown(stations[..n], usage, revenue);
      if HasGroup(usage, stations[n]) || HasGroup(revenue, stations[n])
      then before + [RowOf(stations[n], usage, revenue)] else before
  }

  function UsageByStation(snapshot: Snapshot, scope: Scope): seq<Group<Id>> {
    GroupBy(Select(snapshot.sessions, Started(scope)), StationOf(), EnergyOf())
  }

  function RevenueByStation(snapshot: Snapshot, scope: Scope): seq<Group<Id>> {
    GroupBy(Select(Select(snapshot.payments, Earned(scope)), HasSession(snapshot.sessions)),
            PaidStation(snapshot.sessions), AmountOf())
  }

  function TopStations(snapshot: Snapshot, scope: Scope): seq<StationRow> {
    Breakdown(snapshot.stations, UsageByStation(snapshot, scope), RevenueByStation(snapshot, scope))
  }

  function RowSessions(): StationRow -> int { (r: StationRow) => r.sessions }

  function RowEnergy(): StationRow -> int { (r: StationRow) => r.energy }

  function RowRevenue(): StationRow -> int { (r: StationRow) => r.revenue }

  lemma {:induction false} AbsentIsZero<K>(groups: seq<Group<K>>, k: K)
    requires !HasGroup(groups, k)
    ensures At(groups, k) == Group(k, 0, 0)
  {
    if groups != [] {
      assert groups[0].key != k;
      forall i | 0 <= i < |groups[1..]| ensures groups[1..][i].key != k {
        assert groups[1..][i] == groups[i + 1];
      }
      AbsentIsZero(groups[1..], k);
    }
  }

  lemma RowAdds(rows: seq<StationRow>, id: Id, usage: seq<Group<Id>>, revenue: seq<Group<Id>>)
    ensures var row := RowOf(id, usage, revenue);
            && Sum(rows + [row], RowSessions()) == Sum(rows, RowSessions()) + At(usage, id).count
            && Sum(rows + [row], RowEnergy()) == Sum(rows, RowEnergy()) + At(usage, id).amount
            && Sum(rows + [row], RowRevenue()) == Sum(rows, RowRevenue()) + At(revenue, id).amount
  {
    var row := RowOf(id, usage, revenue);
    SumAppend(rows, row, RowSessions());
    SumAppend(rows, row, RowEnergy());
    SumAppend(rows, row, RowRevenue());
  }

  lemma FillAdds(groups: seq<Group<Id>>, stations: seq<Id>)
    requires stations != []
    ensures var n := |stations| - 1;
            && Sum(Fill(groups, stations), Count())
               == Sum(Fill(groups, stations[..n]), Count()) + At(groups, stations[n]).count
            && Sum(Fill(groups, stations), Amount())
               == Sum(Fill(groups, stations[..n]), Amount()) + At(groups, stations[n]).amount
  {
    var n := |stations| - 1;
    SumAppend(Fill(groups, stations[..n]), At(groups, stations[n]), Count());
    SumAppend(Fill(groups, stations[..n]), At(groups, stations[n]), Amount());
  }

  // Leaving out the stations in neither key set leaves out only zeros.
  lemma {:induction false} BreakdownTotals(stations: seq<Id>, usage: seq<Group<Id>>, revenue: seq<Group<Id>>)
    ensures var rows := Breakdown(stations, usage, revenue);
            && Sum(rows, RowSessions()) == Sum(Fill(usage, stations), Count())
            && Sum(rows, RowEnergy()) == Sum(Fill(usage, stations), Amount())
            && Sum(rows, RowRevenue()) == Sum(Fill(revenue, stations), Amount())
  {
    if stations != [] {
      var n := |stations| - 1;
      var id := stations[n];
      BreakdownTotals(stations[..n], usage, revenue);
      FillAdds(usage, stations);
      FillAdds(revenue, stations);
      if HasGroup(usage, id) || HasGroup(revenue, id) {
        RowAdds(Breakdown(stations[..n], usage, revenue), id, usage, revenue);
      } else {
        AbsentIsZero(usage, id);
        AbsentIsZero(revenue, id);
      }
    }
  }

  // A payment that reaches a station still on record, through a session still on record.
  predicate Attributable(snapshot: Snapshot, r: PaymentRow) {
    r.session.Some? && r.session.value < |snapshot.sessions|
      && snapshot.sessions[r.session.value].station in snapshot.stations
  }

  function Attributed(snapshot: Snapshot): PaymentRow -> int {
    (r: PaymentRow) => if Attributable(snapshot, r) then r.amount else 0
  }

  function Unattributed(snapshot: Snapshot): PaymentRow -> int {
    (r: PaymentRow) => if Attributable(snapshot, r) then 0 else r.amount
  }

  lemma {:induction false} SumSelected<R>(rows: seq<R>, wanted: R -> bool, f: R -> int, g: R -> int)
    requires forall i :: 0 <= i < |rows| ==> g(rows[i]) == if wanted(rows[i]) then f(rows[i]) else 0
    ensures Sum(Select(rows, wanted), f) == Sum(rows, g)
  {
    if rows != [] {
      var n := |rows| - 1;
      assert forall i :: 0 <= i < |rows[..n]| ==> rows[..n][i] == rows[i];
      SumSelected(rows[..n], wanted, f, g);
      if wanted(rows[n]) {
        SumAppend(Select(rows[..n], wanted), rows[n], f);
      } else {
        assert Select(rows[..n], wanted) + [] == Select(rows[..n], wanted);
      }
    }
  }

  lemma BreakdownEarnsTheAttributed(snapshot: Snapshot, scope: Scope)
    requires Distinct(snapshot.stations)
    ensures Sum(TopStations(snapshot, scope), RowRevenue())
            == Sum(Select(snapshot.payments, Earned(scope)), Attributed(snapshot))
  {
    var paid := Select(snapshot.payments, Earned(scope));
    var station := PaidStation(snapshot.sessions);
    BreakdownTotals(snapshot.stations, UsageByStation(snapshot, scope), RevenueByStation(snapshot, scope));
    SeriesCountsItsAxis(Select(paid, HasSession(snapshot.sessions)), station, AmountOf(), snapshot.stations);
    SumSelected(paid, HasSession(snapshot.sessions), Listed(station, snapshot.stations, AmountOf()),
                Attributed(snapshot));
  }

  lemma NothingUnattributedExactlyWhen(snapshot: Snapshot, paid: seq<PaymentRow>)
    ensures Sum(paid, Unattributed(snapshot)) == 0
            <==> forall i :: 0 <= i < |paid| ==> Attributable(snapshot, paid[i]) || paid[i].amount == 0
  {
    if exists i :: 0 <= i < |paid| && !Attributable(snapshot, paid[i]) && paid[i].amount != 0 {
      var i :| 0 <= i < |paid| && !Attributable(snapshot, paid[i]) && paid[i].amount != 0;
      SumAtLeast(paid, Unattributed(snapshot), i);
    } else {
      SumZero(paid, Unattributed(snapshot));
    }
  }

  // The breakdown before its limit earns what the totals earn, less exactly the payments that reach no
  // station on record; so the two agree if and only if no such payment has an amount.
  lemma BreakdownEarnsTheTotal(snapshot: Snapshot, scope: Scope)
    requires Distinct(snapshot.stations)
    ensures var paid := Select(snapshot.payments, Earned(scope));
            var total := GetRevenueTotals(snapshot, scope).revenue;
            var broken := Sum(TopStations(snapshot, scope), RowRevenue());
            && broken + Sum(paid, Unattributed(snapshot)) == total
            && (broken == total
                <==> forall i :: 0 <= i < |paid| ==> Attributable(snapshot, paid[i]) || paid[i].amount == 0)
  {
    var paid := Select(snapshot.payments, Earned(scope));
    BreakdownEarnsTheAttributed(snapshot, scope);
    SumBoth(paid, Attributed(snapshot), Unattributed(snapshot), AmountOf());
    RevenueTotalsHoldEveryRow(snapshot, scope);
    NothingUnattributedExactlyWhen(snapshot, paid);
  }

  // A session at a station that is no longer on record.
  function OffRecord(stations: seq<Id>): SessionRow -> bool {
    (r: SessionRow) => r.station !in stations
  }

  function WhenOff(stations: seq<Id>, weight: SessionRow -> int): SessionRow -> int {
    (r: SessionRow) => if r.station in stations then 0 else weight(r)
  }

  // What a listing by station keeps of any weight, and when that is all of it.
  lemma ListedAndOff(rows: seq<SessionRow>, stations: seq<Id>, weight: SessionRow -> int)
    requires forall i :: 0 <= i < |rows| ==> weight(rows[i]) >= 0
    ensures var listed := Sum(rows, Listed(StationOf(), stations, weight));
            && listed + Sum(Select(rows, OffRecord(stations)), weight) == Sum(rows, weight)
            && (listed == Sum(rows, weight)
                <==> forall i :: 0 <= i < |rows| ==> rows[i].station in stations || weight(rows[i]) == 0)
  {
    var off := WhenOff(stations, weight);
    SumBoth(rows, Listed(StationOf(), stations, weight), off, weight);
    SumSelected(rows, OffRecord(stations), weight, off);
    if i :| 0 <= i < |rows| && rows[i].station !in stations && weight(rows[i]) != 0 {
      SumAtLeast(rows, off, i);
    } else {
      SumZero(rows, off);
    }
  }

  lemma BreakdownCountsTheListed(snapshot: Snapshot, scope: Scope)
    requires Distinct(snapshot.stations)
    ensures var rows := Select(snapshot.sessions, Started(scope));
            && Sum(TopStations(snapshot, scope), RowSessions())
               == Sum(rows, Listed(StationOf(), snapshot.stations, One()))
            && Sum(TopStations(snapshot, scope), RowEnergy())
               == Sum(rows, Listed(StationOf(), snapshot.stations, EnergyOf()))
  {
    var rows := Select(snapshot.sessions, Started(scope));
    BreakdownTotals(snapshot.stations, UsageByStation(snapshot, scope), RevenueByStation(snapshot, scope));
    SeriesCountsItsAxis(rows, StationOf(), EnergyOf(), snapshot.stations);
  }

  lemma CountedAndOff(rows: seq<SessionRow>, stations: seq<Id>)
    ensures var counted := Sum(rows, Listed(StationOf(), stations, One()));
            && counted + |Select(rows, OffRecord(stations))| == |rows|
            && (counted == |rows| <==> forall i :: 0 <= i < |rows| ==> rows[i].station in stations)
  {
    ListedAndOff(rows, stations, One());
    CountIsLength(rows);
    CountIsLength(Select(rows, OffRecord(stations)));
  }

  lemma EnergyAndOff(rows: seq<SessionRow>, stations: seq<Id>)
    ensures var energy := Sum(rows, Listed(StationOf(), stations, EnergyOf()));
            && energy + Sum(Select(rows, OffRecord(stations)), EnergyOf()) == Sum(rows, EnergyOf())
            && (energy == Sum(rows, EnergyOf())
                <==> forall i :: 0 <= i < |rows| ==> rows[i].station in stations || rows[i].energy == 0)
  {
    ListedAndOff(rows, stations, EnergyOf());
  }

  // And it counts the sessions of the totals and their energy, less exactly those at a station off record; so
  // the two agree if and only if every session's station is on record, or for energy, delivered nothing.
  lemma BreakdownCountsEverySession(snapshot: Snapshot, scope: Scope)
    requires Distinct(snapshot.stations)
    ensures var rows := Select(snapshot.sessions, Started(scope));
            var off := Select(rows, OffRecord(snapshot.stations));
            var counted := Sum(TopStations(snapshot, scope), RowSessions());
            var energy := Sum(TopStations(snapshot, scope), RowEnergy());
            && counted + |off| == |rows|
            && energy + Sum(off, EnergyOf()) == Sum(rows, EnergyOf())
            && (counted == |rows| <==> forall i :: 0 <= i < |rows| ==> rows[i].station in snapshot.stations)
            && (energy == Sum(rows, EnergyOf())
                <==> forall i :: 0 <= i < |rows| ==> rows[i].station in snapshot.stations || rows[i].energy == 0)
  {
    var rows := Select(snapshot.sessions, Started(scope));
    BreakdownCountsTheListed(snapshot, scope);
    CountedAndOff(rows, snapshot.stations);
    EnergyAndOff(rows, snapshot.stations);
  }

  /* ------------------------------ the same, counted --------------------------- */

  // A session that began in the window, at a company the caller sees.
  predicate BeganWithin(r: SessionRow, scope: Scope) {
    && r.startedAt.Some? && r.startedAt.value >= scope.range.from && r.startedAt.value <= scope.range.to
    && (scope.company.None? || scope.company.value == r.company)
  }

  function BeganIn(rows: seq<SessionRow>, scope: Scope): set<nat> {
    set i: nat | i < |rows| && BeganWithin(rows[i], scope)
  }

  function EnergyWithin(scope: Scope): SessionRow -> int {
    (r: SessionRow) => if BeganWithin(r, scope) then r.energy else 0
  }

  function OfStatus(rows: seq<SessionRow>, scope: Scope, status: Sessions.Status): set<nat> {
    set i: nat | i < |rows| && BeganWithin(rows[i], scope) && rows[i].status == status
  }

  function Indices<R>(rows: seq<R>, wanted: R -> bool): set<nat> {
    set i: nat | i < |rows| && wanted(rows[i])
  }

  function OneIf<R>(wanted: R -> bool): R -> int {
    (r: R) => if wanted(r) then 1 else 0
  }

  lemma {:induction false} CountIsCard<R>(rows: seq<R>, wanted: R -> bool)
    ensures Sum(rows, OneIf(wanted)) == |Indices(rows, wanted)|
  {
    if rows == [] {
      assert Indices(rows, wanted) == {};
    } else {
      var n := |rows| - 1;
      CountIsCard(rows[..n], wanted);
      IndicesNext(rows, wanted);
    }
  }

  lemma IndicesNext<R>(rows: seq<R>, wanted: R -> bool)
    requires rows != []
    ensures var n := |rows| - 1;
            |Indices(rows, wanted)| == |Indices(rows[..n], wanted)| + if wanted(rows[n]) then 1 else 0
  {
    var n := |rows| - 1;
    assert Indices(rows, wanted) == Indices(rows[..n], wanted) + if wanted(rows[n]) then {n} else {};
  }

  lemma SelectedAreCounted(rows: seq<SessionRow>, scope: Scope)
    ensures |Select(rows, Started(scope))| == |BeganIn(rows, scope)|
  {
    var began := (r: SessionRow) => BeganWithin(r, scope);
    CountIsLength(Select(rows, Started(scope)));
    SumSelected(rows, Started(scope), One(), OneIf(began));
    CountIsCard(rows, began);
    assert Indices(rows, began) == BeganIn(rows, scope);
  }

  lemma StatusesAreCounted(rows: seq<SessionRow>, scope: Scope, status: Sessions.Status)
    ensures Sum(Select(rows, Started(scope)), Keyed(StatusOf(), status, One())) == |OfStatus(rows, scope, status)|
  {
    var counted := (r: SessionRow) => BeganWithin(r, scope) && r.status == status;
    SumSelected(rows, Started(scope), Keyed(StatusOf(), status, One()), OneIf(counted));
    CountIsCard(rows, counted);
    assert Indices(rows, counted) == OfStatus(rows, scope, status);
  }

  // What the totals are totals of: the number of sessions that began in the window, of each status and in all,
  // and the energy of each of them, once.
  lemma TotalsAreOfTheWindow(snapshot: Snapshot, scope: Scope)
    ensures var rows := Select(snapshot.sessions, Started(scope));
            && |rows| == |BeganIn(snapshot.sessions, scope)|
            && Sum(rows, EnergyOf()) == Sum(snapshot.sessions, EnergyWithin(scope))
            && forall s :: Sum(rows, Keyed(StatusOf(), s, One())) == |OfStatus(snapshot.sessions, scope, s)|
  {
    SelectedAreCounted(snapshot.sessions, scope);
    SumSelected(snapshot.sessions, Started(scope), EnergyOf(), EnergyWithin(scope));
    forall s ensures Sum(Select(snapshot.sessions, Started(scope)), Keyed(StatusOf(), s, One()))
                     == |OfStatus(snapshot.sessions, scope, s)|
    {
      StatusesAreCounted(snapshot.sessions, scope, s);
    }
  }

  function OfDay(rows: seq<SessionRow>, scope: Scope, day: int): set<nat> {
    set i: nat | i < |rows| && BeganWithin(rows[i], scope)
                 && day * 86_400_000 <= rows[i].startedAt.value < (day + 1) * 86_400_000
  }

  function EnergyOn(scope: Scope, day: int): SessionRow -> int {
    (r: SessionRow) =>
      if BeganWithin(r, scope) && day * 86_400_000 <= r.startedAt.value < (day + 1) * 86_400_000 then r.energy else 0
  }

  // A session debit paid on a day in the window, to a company the caller sees.
  function EarnedOn(scope: Scope, day: int): PaymentRow -> int {
    (r: PaymentRow) =>
      if && r.purpose == Settlement.SessionCollection && r.status == Settlement.Paid && r.paidAt.Some?
         && scope.range.from <= r.paidAt.value <= scope.range.to
         && day * 86_400_000 <= r.paidAt.value < (day + 1) * 86_400_000
         && (scope.company.None? || r.company == scope.company)
      then r.amount else 0
  }

  // What a day of the series says: the sessions that began on it, their energy, and the money that moved on it.
  lemma PointsAreOfTheirDay(snapshot: Snapshot, scope: Scope, day: int)
    ensures var rows := Select(snapshot.sessions, Started(scope));
            && Sum(rows, Keyed(StartDay(), day, One())) == |OfDay(snapshot.sessions, scope, day)|
            && Sum(rows, Keyed(StartDay(), day, EnergyOf())) == Sum(snapshot.sessions, EnergyOn(scope, day))
    ensures Sum(Select(snapshot.payments, Earned(scope)), Keyed(PaidDay(), day, AmountOf()))
            == Sum(snapshot.payments, EarnedOn(scope, day))
  {
    var onDay := (r: SessionRow) =>
      BeganWithin(r, scope) && day * 86_400_000 <= r.startedAt.value < (day + 1) * 86_400_000;
    SumSelected(snapshot.sessions, Started(scope), Keyed(StartDay(), day, One()), OneIf(onDay));
    CountIsCard(snapshot.sessions, onDay);
    assert Indices(snapshot.sessions, onDay) == OfDay(snapshot.sessions, scope, day);
    SumSelected(snapshot.sessions, Started(scope), Keyed(StartDay(), day, EnergyOf()), EnergyOn(scope, day));
    SumSelected(snapshot.payments, Earned(scope), Keyed(PaidDay(), day, AmountOf()), EarnedOn(scope, day));
  }

  /* ------------------------------ each station's own -------------------------- */

  // What one station's sessions in the window come to, and what was paid for any of its sessions.
  function SessionsAt(scope: Scope, station: Id): SessionRow -> int {
    (r: SessionRow) => if BeganWithin(r, scope) && r.station == station then 1 else 0
  }

  function EnergyAt(scope: Scope, station: Id): SessionRow -> int {
    (r: SessionRow) => if BeganWithin(r, scope) && r.station == station then r.energy else 0
  }

  function PaidFor(snapshot: Snapshot, scope: Scope, station: Id): PaymentRow -> int {
    (r: PaymentRow) =>
      if Earned(scope)(r) && r.session.Some? && r.session.value < |snapshot.sessions|
         && snapshot.sessions[r.session.value].station == station
      then r.amount else 0
  }

  predicate Own(snapshot: Snapshot, scope: Scope, row: StationRow) {
    && row.sessions == Sum(snapshot.sessions, SessionsAt(scope, row.station))
    && row.energy == Sum(snapshot.sessions, EnergyAt(scope, row.station))
    && row.revenue == Sum(snapshot.payments, PaidFor(snapshot, scope, row.station))
  }

  lemma RowIsOwn(snapshot: Snapshot, scope: Scope, station: Id)
    ensures Own(snapshot, scope, RowOf(station, UsageByStation(snapshot, scope), RevenueByStation(snapshot, scope)))
  {
    var rows := Select(snapshot.sessions, Started(scope));
    var paid := Select(snapshot.payments, Earned(scope));
    var known := HasSession(snapshot.sessions);
    var stationOf := PaidStation(snapshot.sessions);
    GroupIsKeyed(rows, StationOf(), EnergyOf(), station);
    SumSelected(snapshot.sessions, Started(scope), Keyed(StationOf(), station, One()), SessionsAt(scope, station));
    SumSelected(snapshot.sessions, Started(scope), Keyed(StationOf(), station, EnergyOf()), EnergyAt(scope, station));
    GroupIsKeyed(Select(paid, known), stationOf, AmountOf(), station);
    var ofKnown := (r: PaymentRow) => if known(r) then Keyed(stationOf, station, AmountOf())(r) else 0;
    SumSelected(paid, known, Keyed(stationOf, station, AmountOf()), ofKnown);
    SumSelected(snapshot.payments, Earned(scope), ofKnown, PaidFor(snapshot, scope, station));
  }

  predicate AllOwn(snapshot: Snapshot, scope: Scope, stations: seq<Id>, rows: seq<StationRow>) {
    forall i :: 0 <= i < |rows| ==> rows[i].station in stations && Own(snapshot, scope, rows[i])
  }

  lemma OneMoreOwn(snapshot: Snapshot, scope: Scope, stations: seq<Id>, rows: seq<StationRow>, row: StationRow)
    requires stations != [] && AllOwn(snapshot, scope, stations[..|stations| - 1], rows)
    requires row.station == stations[|stations| - 1] && Own(snapshot, scope, row)
    ensures AllOwn(snapshot, scope, stations, rows) && AllOwn(snapshot, scope, stations, rows + [row])
  {
    forall i | 0 <= i < |rows| ensures rows[i].station in stations {
      assert rows[i].station in stations[..|stations| - 1];
    }
  }

  lemma {:induction false} EachStationItsOwn(snapshot: Snapshot, scope: Scope, stations: seq<Id>,
                                             usage: seq<Group<Id>>, revenue: seq<Group<Id>>)
    requires usage == UsageByStation(snapshot, scope) && revenue == RevenueByStation(snapshot, scope)
    ensures AllOwn(snapshot, scope, stations, Breakdown(stations, usage, revenue))
  {
    if stations != [] {
      var n := |stations| - 1;
      EachStationItsOwn(snapshot, scope, stations[..n], usage, revenue);
      RowIsOwn(snapshot, scope, stations[n]);
      OneMoreOwn(snapshot, scope, stations, Breakdown(stations[..n], usage, revenue),
        RowOf(stations[n], usage, revenue));
    }
  }

  // Every row of the breakdown says what its own station had and earned, and no other's.
  lemma StationsOfTheBreakdown(snapshot: Snapshot, scope: Scope)
    ensures var rows := TopStations(snapshot, scope);
            forall i :: 0 <= i < |rows| ==> rows[i].station in snapshot.stations && Own(snapshot, scope, rows[i])
  {
    EachStationItsOwn(snapshot, scope, snapshot.stations, UsageByStation(snapshot, scope),
      RevenueByStation(snapshot, scope));
  }
}
