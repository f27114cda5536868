/**
 * The aggregator: one reconcile turns the reports of an application into one row per target cluster, four lists of
 * troubled clusters, a fleet phase and the gauges of every target.
 */
module Propagation {
  import opened Base
  import opened Model
  import opened Gauges

  datatype Spec = Spec(
    appName: string,
    expectedRevision: string,
    targetClusters: seq<string>,
    lagThresholdSeconds: Int32,
    staleReportThresholdSeconds: Int32)

  /** The FullyPropagated condition. */
  datatype Condition = NoCondition | FullyPropagated(isTrue: bool, reason: FleetPhase)

  datatype Fleet = Fleet(
    lastExpectedRevision: string,
    expectedRevisionSince: Time,
    rows: seq<Row>,
    diverged: seq<string>,
    lagging: seq<string>,
    stale: seq<string>,
    missing: seq<string>,
    phase: FleetPhase,
    condition: Condition)

  const NEW_FLEET := Fleet("", ZERO_TIME, [], [], [], [], [], FleetUnset, NoCondition)

  /** What one reconcile reads: the spec, the listed reports and the clock, twice. */
  datatype Look = Look(spec: Spec, reports: seq<Report>, resetAt: Time, now: Time)

  function LagThreshold(spec: Spec): Int32 { OrDefault(spec.lagThresholdSeconds, 600) }

  function StaleThreshold(spec: Spec): Int32 { OrDefault(spec.staleReportThresholdSeconds, 900) }

  // ----- one reconcile -----

  /** Later reports of the same cluster overwrite earlier ones. */
  function ByCluster(reports: seq<Report>): map<string, Report>
  {
    if reports == [] then map[]
    else
      var rep := reports[|reports| - 1];
      ByCluster(reports[..|reports| - 1])[rep.clusterName := rep]
  }

  function Since(prev: Fleet, look: Look): Time
  {
    if prev.lastExpectedRevision != look.spec.expectedRevision then look.resetAt else prev.expectedRevisionSince
  }

  function Classify(spec: Spec, since: Time, now: Time, rep: Report): RowState
  {
    if Sub(now, rep.observedAt) > StaleThreshold(spec) then Stale
    else if rep.syncStatus.OutOfSync? then Diverged
    else if rep.observedRevision != spec.expectedRevision then
      if Sub(now, since) > LagThreshold(spec) then Lagging else Propagating
    else InSync
  }

  function MissingRow(cluster: string): Row
  {
    Row(cluster, "", "", SyncUnset, HealthUnset, ZERO_TIME, false, NO_POOL, NO_VIRT, NO_PLATFORM, Missing, [], [], [])
  }

  function RowOf(cluster: string, rep: Report, state: RowState): Row
  {
    Row(cluster, rep.appNamespace, rep.observedRevision, rep.syncStatus, rep.health, rep.observedAt, false,
        rep.pool, rep.virt, rep.platform, state, rep.recentEvents, rep.objectChanges, rep.dependencies)
  }

  /** The row copies everything the report says. */
  predicate Copies(row: Row, rep: Report)
  {
    && row.appNamespace == rep.appNamespace && row.observedRevision == rep.observedRevision
    && row.syncStatus == rep.syncStatus && row.health == rep.health && row.observedAt == rep.observedAt
    && row.pool == rep.pool && row.virt == rep.virt && row.platform == rep.platform
    && row.recentEvents == rep.recentEvents && row.objectChanges == rep.objectChanges
    && row.dependencies == rep.dependencies && !row.sawReportSinceChgStart
  }

  /** The row says nothing but that there is no report. */
  predicate Blank(row: Row)
  {
    && row.state.Missing? && row.appNamespace == "" && row.observedRevision == ""
    && row.syncStatus.SyncUnset? && row.health.HealthUnset? && row.observedAt == ZERO_TIME
    && row.pool == NO_POOL && row.virt == NO_VIRT && row.platform == NO_PLATFORM
    && row.recentEvents == [] && row.objectChanges == [] && row.dependencies == [] && !row.sawReportSinceChgStart
  }

  /** The row of one target and the lag and age its gauges show. */
  datatype Cell = Cell(row: Row, lag: int, age: int)

  function CellFor(spec: Spec, since: Time, now: Time, byCluster: map<string, Report>, cluster: string): Cell
  {
    if cluster !in byCluster then Cell(MissingRow(cluster), 0, -1)
    else
      var rep := byCluster[cluster];
      var state := Classify(spec, since, now, rep);
      Cell(RowOf(cluster, rep, state), if state.Lagging? || state.Propagating? then Sub(now, since) else 0,
          Sub(now, rep.observedAt))
  }

  function Cells(cell: string -> Cell, targets: seq<string>): (r: seq<Cell>)
    ensures |r| == |targets|
    ensures forall i :: 0 <= i < |targets| ==> r[i] == cell(targets[i])
  {
    seq(|targets|, i requires 0 <= i < |targets| => cell(targets[i]))
  }

  function RowsOf(cells: seq<Cell>): (r: seq<Row>)
    ensures |r| == |cells|
    ensures forall i :: 0 <= i < |cells| ==> r[i] == cells[i].row
  {
    seq(|cells|, i requires 0 <= i < |cells| => cells[i].row)
  }

  /** The names of the rows whose state is among `states`, in row order. */
  function Names(rows: seq<Row>, states: set<RowState>): seq<string>
  {
    if rows == [] then []
    else
      var last := rows[|rows| - 1];
      Names(rows[..|rows| - 1], states) + if last.state in states then [last.clusterName] else []
  }

  function RollUpPhase(diverged: seq<string>, stale: seq<string>, missing: seq<string>,
                       lagging: seq<string>): FleetPhase
  {
    if |diverged| > 0 then FleetDiverged
    else if |stale| > 0 || |missing| > 0 then FleetStale
    else if |lagging| > 0 then FleetPropagating
    else FleetSynced
  }

  function ConditionOf(phase: FleetPhase): Condition
  {
    FullyPropagated(!phase.FleetDiverged? && !phase.FleetStale?, phase)
  }

  function FleetOf(revision: string, since: Time, rows: seq<Row>): Fleet
  {
    var diverged, lagging := Names(rows, {Diverged}), Names(rows, {Lagging, Propagating});
    var stale, missing := Names(rows, {Stale}), Names(rows, {Missing});
    var phase := RollUpPhase(diverged, stale, missing, lagging);
    Fleet(revision, since, rows, diverged, lagging, stale, missing, phase, ConditionOf(phase))
  }

  function LookCells(prev: Fleet, look: Look): seq<Cell>
  {
    var byCluster, since := ByCluster(look.reports), Since(prev, look);
    Cells(c => CellFor(look.spec, since, look.now, byCluster, c), look.spec.targetClusters)
  }

  /** The status a reconcile computes. */
  function Aggregate(prev: Fleet, look: Look): Fleet
  {
    FleetOf(look.spec.expectedRevision, Since(prev, look), RowsOf(LookCells(prev, look)))
  }

  /** The gauges after each target's state has been recorded. */
  function RecordAll(g: View, app: string, cells: seq<Cell>): View
  {
    if cells == [] then g
    else
      var c := cells[|cells| - 1];
      Record(RecordAll(g, app, cells[..|cells| - 1]), app, c.row.clusterName, c.row.state, c.lag, c.age)
  }

  /** The gauges after the clusters of `rows` outside `kept` have been dropped. */
  function DropGone(g: View, app: string, rows: seq<Row>, kept: set<string>): View
  {
    if rows == [] then g
    else
      var rest := DropGone(g, app, rows[..|rows| - 1], kept);
      var c := rows[|rows| - 1].clusterName;
      if c in kept then rest else Delete(rest, app, c)
  }

  function TargetSet(spec: Spec): set<string> { set c | c in spec.targetClusters }

  /** The gauges after a reconcile. They change whether or not the status write then succeeds. */
  function Regauge(g: View, prev: Fleet, look: Look): View
  {
    DropGone(RecordAll(g, look.spec.appName, LookCells(prev, look)), look.spec.appName, prev.rows, TargetSet(look.spec))
  }

  // ----- what a reconcile publishes -----

  /** `reports[j]` is the report of `cluster` that counts. */
  ghost predicate IsLast(reports: seq<Report>, j: int, cluster: string)
  {
    && 0 <= j < |reports| && reports[j].clusterName == cluster
    && forall i :: j < i < |reports| ==> reports[i].clusterName != cluster
  }

  lemma {:induction false} ByClusterMeaning(reports: seq<Report>, cluster: string)
    ensures cluster in ByCluster(reports) <==> exists j :: IsLast(reports, j, cluster)
    ensures forall j :: IsLast(reports, j, cluster) ==>
        cluster in ByCluster(reports)
        && ByCluster(reports)[cluster] == reports[j]
    ensures cluster !in ByCluster(reports) ==> forall i :: 0 <= i < |reports| ==> reports[i].clusterName != cluster
  {
    if reports != [] {
      var n := |reports| - 1;
      var front := reports[..n];
      ByClusterMeaning(front, cluster);
      if reports[n].clusterName == cluster {
        assert IsLast(reports, n, cluster);
      } else {
        assert forall j :: IsLast(reports, j, cluster) ==> IsLast(front, j, cluster);
        assert forall j :: IsLast(front, j, cluster) ==> IsLast(reports, j, cluster);
      }
    }
  }

  lemma {:induction false} NamesSplit(rows: seq<Row>, a: set<RowState>, b: set<RowState>)
    requires a !! b
    ensures multiset(Names(rows, a)) + multiset(Names(rows, b)) == multiset(Names(rows, a + b))
    ensures |Names(rows, a)| + |Names(rows, b)| == |Names(rows, a + b)|
  {
    if rows != [] {
      NamesSplit(rows[..|rows| - 1], a, b);
    }
  }

  lemma {:induction false} NamesOfAll(rows: seq<Row>, states: set<RowState>)
    requires forall i :: 0 <= i < |rows| ==> rows[i].state in states
    ensures |Names(rows, states)| == |rows|
    ensures forall i :: 0 <= i < |rows| ==> Names(rows, states)[i] == rows[i].clusterName
  {
    if rows != [] {
      NamesOfAll(rows[..|rows| - 1], states);
    }
  }

  /** A name is listed exactly when some row of that name has one of the states. */
  lemma {:induction false} NamesMeaning(rows: seq<Row>, states: set<RowState>, name: string)
    ensures name in Names(rows, states) <==> exists i ::
        0 <= i < |rows| && rows[i].clusterName == name
        && rows[i].state in states
    ensures |Names(rows, states)| == 0 <==> forall i :: 0 <= i < |rows| ==> rows[i].state !in states
  {
    if rows != [] {
      NamesMeaning(rows[..|rows| - 1], states, name);
      assert rows == rows[..|rows| - 1] + [rows[|rows| - 1]];
    }
  }

  // ----- the published status -----

  /** The state a target deserves, said without reference to how it is computed. */
  ghost predicate StateFits(look: Look, since: Time, cluster: string, state: RowState)
  {
    if forall i :: 0 <= i < |look.reports| ==> look.reports[i].clusterName != cluster then state.Missing?
    else exists j ::
      && IsLast(look.reports, j, cluster)
      && var rep := look.reports[j];
         var recent := Sub(look.now, rep.observedAt) <= OrDefault(look.spec.staleReportThresholdSeconds, 900);
         var behind := rep.observedRevision != look.spec.expectedRevision;
         var overdue := Sub(look.now, since) > OrDefault(look.spec.lagThresholdSeconds, 600);
         && (state.Stale? <==> !recent)
         && (state.Diverged? <==> recent && rep.syncStatus.OutOfSync?)
         && (state.Lagging? <==> recent && !rep.syncStatus.OutOfSync? && behind && overdue)
         && (state.Propagating? <==> recent && !rep.syncStatus.OutOfSync? && behind && !overdue)
         && (state.InSync? <==> recent && !rep.syncStatus.OutOfSync? && !behind)
  }

  /** The published rows are the targets in order, each classified by its last report. */
  lemma {:induction false} RowsMatchTargets(prev: Fleet, look: Look, i: nat)
    requires i < |look.spec.targetClusters|
    ensures |Aggregate(prev, look).rows| == |look.spec.targetClusters|
    ensures var row := Aggregate(prev, look).rows[i];
            && row.clusterName == look.spec.targetClusters[i]
            && StateFits(look, Since(prev, look), row.clusterName, row.state)
            && (row.state.Missing? ==> Blank(row))
            && (!row.state.Missing? ==> exists j ::
                IsLast(look.reports, j, row.clusterName) && Copies(row, look.reports[j]))
  {
    var c := look.spec.targetClusters[i];
    ByClusterMeaning(look.reports, c);
    assert Aggregate(prev, look).rows[i] == LookCells(prev, look)[i].row;
  }

  lemma {:induction false} RowFacts(prev: Fleet, look: Look)
    ensures var rows, targets := Aggregate(prev, look).rows, look.spec.targetClusters;
            |rows| == |targets| && forall i :: 0 <= i < |rows| ==>
                rows[i].clusterName == targets[i]
                && rows[i].state in PossibleStates()
  {
    var rows := Aggregate(prev, look).rows;
    forall i | 0 <= i < |rows| ensures rows[i].clusterName == look.spec.targetClusters[i]
      && rows[i].state in PossibleStates() {
      assert rows[i] == LookCells(prev, look)[i].row;
    }
  }

  /** The four lists and the InSync rows share out the targets, each occurrence once. */
  ghost predicate SharesOut(f: Fleet, targets: seq<string>)
  {
    var inSync := Names(f.rows, {InSync});
    && multiset(f.diverged) + multiset(f.stale) + multiset(f.missing) + multiset(f.lagging)
       + multiset(inSync) == multiset(targets)
    && |f.diverged| + |f.stale| + |f.missing| + |f.lagging| + |inSync| == |targets|
  }

  ghost predicate HasRow(rows: seq<Row>, name: string, states: set<RowState>)
  {
    exists i :: 0 <= i < |rows| && rows[i].clusterName == name && rows[i].state in states
  }

  /** The lists hold exactly the targets whose state they name; the lagging one holds the Propagating ones too. */
  ghost predicate ListsRight(f: Fleet, name: string)
  {
    && (name in f.diverged <==> HasRow(f.rows, name, {Diverged}))
    && (name in f.lagging <==> HasRow(f.rows, name, {Lagging, Propagating}))
    && (name in f.stale <==> HasRow(f.rows, name, {Stale}))
    && (name in f.missing <==> HasRow(f.rows, name, {Missing}))
  }

  lemma {:induction false} ListsPartitionTargets(prev: Fleet, look: Look, name: string)
    ensures SharesOut(Aggregate(prev, look), look.spec.targetClusters)
    ensures ListsRight(Aggregate(prev, look), name)
  {
    RowFacts(prev, look);
    var f := Aggregate(prev, look);
    ListsShareOut(f.lastExpectedRevision, f.expectedRevisionSince, f.rows, look.spec.targetClusters);
    ListsOf(f.lastExpectedRevision, f.expectedRevisionSince, f.rows, name);
  }

  lemma {:induction false} ListsOf(revision: string, since: Time, rows: seq<Row>, name: string)
    ensures ListsRight(FleetOf(revision, since, rows), name)
  {
    NamesMeaning(rows, {Diverged}, name);
    NamesMeaning(rows, {Lagging, Propagating}, name);
    NamesMeaning(rows, {Stale}, name);
    NamesMeaning(rows, {Missing}, name);
  }

  predicate AllIn(rows: seq<Row>, states: set<RowState>)
  {
    forall i :: 0 <= i < |rows| ==> rows[i].state in states
  }

  lemma {:induction false} PartsShareOut(rows: seq<Row>, a: set<RowState>, b: set<RowState>, c: set<RowState>,
                                         d: set<RowState>, e: set<RowState>)
    requires a !! b !! c !! d !! e && AllIn(rows, a + b + c + d + e)
    ensures multiset(Names(rows, a)) + multiset(Names(rows, b)) + multiset(Names(rows, c)) + multiset(Names(rows, d))
            + multiset(Names(rows, e)) == multiset(Names(rows, a + b + c + d + e))
    ensures |Names(rows, a)| + |Names(rows, b)| + |Names(rows, c)| + |Names(rows, d)| + |Names(rows, e)| == |rows|
  {
    NamesSplit(rows, a, b);
    NamesSplit(rows, a + b, c);
    NamesSplit(rows, a + b + c, d);
    NamesSplit(rows, a + b + c + d, e);
    NamesOfAll(rows, a + b + c + d + e);
  }

  lemma {:induction false} ListsShareOut(revision: string, since: Time, rows: seq<Row>, targets: seq<string>)
    requires |rows| == |targets|
    requires forall i :: 0 <= i < |rows| ==> rows[i].clusterName == targets[i] && rows[i].state in PossibleStates()
    ensures SharesOut(FleetOf(revision, since, rows), targets)
  {
    var all: set<RowState> := {Diverged} + {Stale} + {Missing} + {Lagging, Propagating} + {InSync};
    PartsShareOut(rows, {Diverged}, {Stale}, {Missing}, {Lagging, Propagating}, {InSync});
    NamesOfAll(rows, all);
    assert Names(rows, all) == targets;
  }

  /** The fleet phase reads off the worst row; the condition stays True while rows are merely Lagging or Propagating. */
  ghost predicate PhaseRight(f: Fleet)
  {
    && (f.phase.FleetSynced? <==> AllIn(f.rows, {InSync}))
    && (f.phase.FleetPropagating? <==> AllIn(f.rows, {InSync, Lagging, Propagating}) && !AllIn(f.rows, {InSync}))
    && (f.phase.FleetStale? <==>
        AllIn(f.rows, {InSync, Lagging, Propagating, Stale, Missing})
        && !AllIn(f.rows, {InSync, Lagging, Propagating}))
    && (f.phase.FleetDiverged? <==> !AllIn(f.rows, {InSync, Lagging, Propagating, Stale, Missing}))
    && f.condition == FullyPropagated(AllIn(f.rows, {InSync, Lagging, Propagating}), f.phase)
  }

  lemma {:induction false} PhaseMeaning(prev: Fleet, look: Look)
    ensures PhaseRight(Aggregate(prev, look))
  {
    RowFacts(prev, look);
    var f := Aggregate(prev, look);
    PhaseOf(f.lastExpectedRevision, f.expectedRevisionSince, f.rows);
  }

  lemma {:induction false} NoneListed(rows: seq<Row>, states: set<RowState>, others: set<RowState>)
    requires states !! others && AllIn(rows, others + states)
    ensures |Names(rows, states)| == 0 <==> AllIn(rows, others)
  {
    NamesMeaning(rows, states, "");
  }

  lemma {:induction false} PhaseOf(revision: string, since: Time, rows: seq<Row>)
    requires forall i :: 0 <= i < |rows| ==> rows[i].state in PossibleStates()
    ensures PhaseRight(FleetOf(revision, since, rows))
  {
    var ok: set<RowState> := {InSync, Lagging, Propagating};
    assert {InSync, Lagging, Propagating, Stale, Missing} == ok + {Missing} + {Stale};
    NoneListed(rows, {Diverged}, ok + {Missing} + {Stale});
    if AllIn(rows, ok + {Missing} + {Stale}) {
      NoneListed(rows, {Stale}, ok + {Missing});
      if AllIn(rows, ok + {Missing}) {
        NoneListed(rows, {Missing}, ok);
        if AllIn(rows, ok) {
          assert ok == {InSync} + {Lagging, Propagating};
          NoneListed(rows, {Lagging, Propagating}, {InSync});
        }
      }
    }
  }
}
