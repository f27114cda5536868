/** The aggregator's reconcile as the controller runs it: loops over reports and targets, gauges updated on the way. */
module PropagationController {
  import opened Base
  import opened Model
  import opened Gauges
  import opened Propagation

  method IndexReports(reports: seq<Report>) returns (byCluster: map<string, Report>)
    ensures byCluster == ByCluster(reports)
  {
    byCluster := map[];
    for i := 0 to |reports|
      invariant byCluster == ByCluster(reports[..i])
    {
      assert reports[..i + 1][..i] == reports[..i];
      byCluster := byCluster[reports[i].clusterName := reports[i]];
    }
    assert reports[..|reports|] == reports;
  }

  lemma {:induction false} NamesAppend(rows: seq<Row>, row: Row, states: set<RowState>)
    ensures Names(rows + [row], states) == Names(rows, states) + if row.state in states then [row.clusterName] else []
  {
    assert (rows + [row])[..|rows|] == rows;
  }

  lemma {:induction false} RecordAppend(g: View, app: string, cells: seq<Cell>, c: Cell)
    ensures RecordAll(g, app, cells + [c]) == Record(RecordAll(g, app, cells), app, c.row.clusterName, c.row.state,
            c.lag, c.age)
  {
    assert (cells + [c])[..|cells|] == cells;
  }

  /** The five slices the aggregation loop appends to. */
  datatype Lists = Lists(states: seq<Row>, diverged: seq<string>, lagging: seq<string>, stale: seq<string>,
      missing: seq<string>)

  ghost predicate Collected(l: Lists, rows: seq<Row>)
  {
    && l.states == rows
    && l.diverged == Names(rows, {Diverged})
    && l.lagging == Names(rows, {Lagging, Propagating})
    && l.stale == Names(rows, {Stale})
    && l.missing == Names(rows, {Missing})
  }

  /** What one more row adds to the slices. */
  function Listing(l: Lists, row: Row): Lists
  {
    var name := [row.clusterName];
    Lists(l.states + [row],
          if row.state.Diverged? then l.diverged + name else l.diverged,
          if row.state.Lagging? || row.state.Propagating? then l.lagging + name else l.lagging,
          if row.state.Stale? then l.stale + name else l.stale,
          if row.state.Missing? then l.missing + name else l.missing)
  }

  lemma {:induction false} ListingCollects(l: Lists, rows: seq<Row>, row: Row)
    requires Collected(l, rows)
    ensures Collected(Listing(l, row), rows + [row])
  {
    NamesAppend(rows, row, {Diverged});
    NamesAppend(rows, row, {Lagging, Propagating});
    NamesAppend(rows, row, {Stale});
    NamesAppend(rows, row, {Missing});
  }

  /** One round of the aggregation loop, without the gauges. */
  method AppendTarget(spec: Spec, since: Time, now: Time, byCluster: map<string, Report>, clusterName: string,
                      l0: Lists)
    returns (l: Lists, cell: Cell)
    ensures cell == CellFor(spec, since, now, byCluster, clusterName)
    ensures l == Listing(l0, cell.row)
  {
    l := l0;
    if clusterName !in byCluster {
      l := l.(missing := l.missing + [clusterName]);
      var blank := Row(clusterName, "", "", SyncUnset, HealthUnset, ZERO_TIME, false, NO_POOL, NO_VIRT, NO_PLATFORM,
                       Missing, [], [], []);
      cell := Cell(blank, 0, -1);
    } else {
      var rep := byCluster[clusterName];
      var reportAge := Sub(now, rep.observedAt);
      var state := InSync;
      var lagSeconds := 0;
      if reportAge > OrDefault(spec.staleReportThresholdSeconds, 900) {
        state := Stale;
        l := l.(stale := l.stale + [clusterName]);
      } else if rep.syncStatus == OutOfSync {
        state := Diverged;
        l := l.(diverged := l.diverged + [clusterName]);
      } else if rep.observedRevision != spec.expectedRevision {
        lagSeconds := Sub(now, since);
        l := l.(lagging := l.lagging + [clusterName]);
        state := if lagSeconds > OrDefault(spec.lagThresholdSeconds, 600) then Lagging else Propagating;
      }
      var row := Row(clusterName, rep.appNamespace, rep.observedRevision, rep.syncStatus, rep.health, rep.observedAt,
                     false, rep.pool, rep.virt, rep.platform, state, rep.recentEvents, rep.objectChanges,
                     rep.dependencies);
      cell := Cell(row, lagSeconds, reportAge);
    }
    l := l.(states := l.states + [cell.row]);
  }

  /** One round of the aggregation loop: the slices, then the gauges. */
  method ClassifyTarget(spec: Spec, since: Time, now: Time, byCluster: map<string, Report>, clusterName: string,
                        l0: Lists, metrics: Metrics)
    returns (l: Lists, ghost cell: Cell)
    modifies metrics
    ensures cell == CellFor(spec, since, now, byCluster, clusterName)
    ensures l == Listing(l0, cell.row)
    ensures metrics.Now() == Record(old(metrics.Now()), spec.appName, cell.row.clusterName, cell.row.state, cell.lag,
            cell.age)
  {
    var shown;
    l, shown := AppendTarget(spec, since, now, byCluster, clusterName, l0);
    metrics.RecordClusterMetrics(spec.appName, shown.row.clusterName, shown.row.state, shown.lag, shown.age);
    cell := shown;
  }

  /** Slices and gauges as they should be after these cells. */
  ghost predicate Classified(l: Lists, g: View, g0: View, app: string, cells: seq<Cell>)
  {
    Collected(l, RowsOf(cells)) && g == RecordAll(g0, app, cells)
  }

  lemma {:induction false} ClassifiedGrows(l: Lists, g: View, g0: View, app: string, cells: seq<Cell>, cell: Cell)
    requires Classified(l, g, g0, app, cells)
    ensures Classified(Listing(l, cell.row), Record(g, app, cell.row.clusterName, cell.row.state, cell.lag, cell.age),
            g0, app, cells + [cell])
  {
    ListingCollects(l, RowsOf(cells), cell.row);
    RecordAppend(g0, app, cells, cell);
    assert RowsOf(cells) + [cell.row] == RowsOf(cells + [cell]);
  }

  method ClassifyTargets(spec: Spec, since: Time, now: Time, byCluster: map<string, Report>, metrics: Metrics)
    returns (l: Lists, ghost cells: seq<Cell>)
    modifies metrics
    ensures |cells| == |spec.targetClusters|
    ensures forall i :: 0 <= i < |cells| ==> cells[i] == CellFor(spec, since, now, byCluster, spec.targetClusters[i])
    ensures Classified(l, metrics.Now(), old(metrics.Now()), spec.appName, cells)
  {
    l, cells := Lists([], [], [], [], []), [];
    for i := 0 to |spec.targetClusters|
      invariant |cells| == i
      invariant forall k :: 0 <= k < i ==> cells[k] == CellFor(spec, since, now, byCluster, spec.targetClusters[k])
      invariant Classified(l, metrics.Now(), old(metrics.Now()), spec.appName, cells)
    {
      ghost var l0, g := l, metrics.Now();
      ghost var cell;
      l, cell := ClassifyTarget(spec, since, now, byCluster, spec.targetClusters[i], l, metrics);
      ClassifiedGrows(l0, g, old(metrics.Now()), spec.appName, cells, cell);
      cells := cells + [cell];
    }
  }

  /** Gauges of former targets go: those of stored rows outside `kept`. */
  method DropFormer(app: string, rows: seq<Row>, kept: set<string>, metrics: Metrics)
    modifies metrics
    ensures metrics.Now() == DropGone(old(metrics.Now()), app, rows, kept)
  {
    for i := 0 to |rows|
      invariant metrics.Now() == DropGone(old(metrics.Now()), app, rows[..i], kept)
    {
      assert rows[..i + 1][..i] == rows[..i];
      if rows[i].clusterName !in kept {
        metrics.DeleteClusterMetrics(app, rows[i].clusterName);
      }
    }
    assert rows[..|rows|] == rows;
  }

  class PropagationStatus {
    var lastExpectedRevision: string
    var expectedRevisionSince: Time
    var clusterStates: seq<Row>
    var divergedClusters: seq<string>
    var laggingClusters: seq<string>
    var staleClusters: seq<string>
    var missingClusters: seq<string>
    var phase: FleetPhase
    var condition: Condition

    /** The object as last stored. */
    constructor (f: Fleet)
      ensures Status() == f
    {
      lastExpectedRevision, expectedRevisionSince, clusterStates := f.lastExpectedRevision, f.expectedRevisionSince,
          f.rows;
      divergedClusters, laggingClusters, staleClusters, missingClusters := f.diverged, f.lagging, f.stale, f.missing;
      phase, condition := f.phase, f.condition;
    }

    ghost function Status(): Fleet
      reads this
    {
      Fleet(lastExpectedRevision, expectedRevisionSince, clusterStates,
            divergedClusters, laggingClusters, staleClusters, missingClusters, phase, condition)
    }

    /** The lag clock starts anew when the expected revision has moved. */
    method ResetClock(look: Look)
      modifies this`lastExpectedRevision, this`expectedRevisionSince
      ensures Status() == old(Status()).(lastExpectedRevision := look.spec.expectedRevision,
                                         expectedRevisionSince := Since(old(Status()), look))
    {
      if lastExpectedRevision != look.spec.expectedRevision {
        lastExpectedRevision := look.spec.expectedRevision;
        expectedRevisionSince := look.resetAt;
      }
    }

    /** The slices become the status, with the phase and the condition they call for. */
    method Publish(l: Lists, ghost rows: seq<Row>)
      requires Collected(l, rows)
      modifies this`clusterStates, this`divergedClusters, this`laggingClusters, this`staleClusters,
          this`missingClusters,
               this`phase, this`condition
      ensures Status() == FleetOf(old(lastExpectedRevision), old(expectedRevisionSince), rows)
    {
      clusterStates := l.states;
      divergedClusters, laggingClusters, staleClusters, missingClusters := l.diverged, l.lagging, l.stale, l.missing;
      phase := RollUpPhase(l.diverged, l.stale, l.missing, l.lagging);
      condition := ConditionOf(phase);
    }

    /** Computes the status in place and updates the gauges. The caller's write of the status may still fail. */
    method Reconcile(look: Look, metrics: Metrics)
      modifies this, metrics
      ensures Status() == Aggregate(old(Status()), look)
      ensures metrics.Now() == Regauge(old(metrics.Now()), old(Status()), look)
    {
      var originalStates := clusterStates;
      ghost var prev := Status();
      ResetClock(look);
      var byCluster := IndexReports(look.reports);
      var l, cells := ClassifyTargets(look.spec, expectedRevisionSince, look.now, byCluster, metrics);
      assert cells == LookCells(prev, look);
      var targetMap := TargetSet(look.spec);
      DropFormer(look.spec.appName, originalStates, targetMap, metrics);
      Publish(l, RowsOf(cells));
    }

    /** The deletion branch: the gauges of every stored row go. */
    method Finalize(app: string, metrics: Metrics)
      modifies metrics
      ensures metrics.Now() == DropGone(old(metrics.Now()), app, Status().rows, {})
      ensures Status() == old(Status())
    {
      DropFormer(app, clusterStates, {}, metrics);
    }
  }
}
