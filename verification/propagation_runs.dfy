/** The aggregator over whole runs: the lag clock, and the gauges as an index derived from the stored rows. */
module PropagationRuns {
  import opened Base
  import opened Model
  import opened Gauges
  import opened Propagation

  // ----- the lag clock -----

  /** The stored status after these reconciles, all of whose writes succeeded. */
  function FleetAfter(looks: seq<Look>): Fleet
  {
    if looks == [] then NEW_FLEET else Aggregate(FleetAfter(looks[..|looks| - 1]), looks[|looks| - 1])
  }

  /** The clock does not go back, and it counts from Go's zero time: any reading is beyond what a duration can hold. */
  ghost predicate ClockRuns(looks: seq<Look>)
  {
    && (forall i :: 0 <= i < |looks| ==> MAX_DURATION < looks[i].resetAt <= looks[i].now)
    && (forall i, j :: 0 <= i < j < |looks| ==> looks[i].now <= looks[j].resetAt)
  }

  function Revision(looks: seq<Look>): string
    requires looks != []
  {
    looks[|looks| - 1].spec.expectedRevision
  }

  /** The reconciles from `b` on are the unbroken stretch that saw the present expected revision. */
  ghost predicate Stretch(looks: seq<Look>, b: int)
  {
    && 0 <= b < |looks|
    && (forall i :: b <= i < |looks| ==> looks[i].spec.expectedRevision == Revision(looks))
    && (b > 0 ==> looks[b - 1].spec.expectedRevision != Revision(looks))
  }

  lemma {:induction false} StretchExists(looks: seq<Look>) returns (b: int)
    requires looks != []
    ensures Stretch(looks, b)
  {
    var n := |looks| - 1;
    if n > 0 && looks[n - 1].spec.expectedRevision == Revision(looks) {
      b := StretchExists(looks[..n]);
    } else {
      b := n;
    }
  }

  /** When the clock was last reset, looking at the expected revisions alone. */
  function LastReset(looks: seq<Look>): Time
  {
    if looks == [] then ZERO_TIME
    else
      var front := looks[..|looks| - 1];
      if Revision(looks) == (if front == [] then "" else Revision(front)) then LastReset(front)
          else looks[|looks| - 1].resetAt
  }

  lemma {:induction false} FleetClock(looks: seq<Look>)
    ensures FleetAfter(looks).lastExpectedRevision == if looks == [] then "" else Revision(looks)
    ensures FleetAfter(looks).expectedRevisionSince == LastReset(looks)
  {
    if looks != [] {
      FleetClock(looks[..|looks| - 1]);
    }
  }

  lemma {:induction false} LastResetMeaning(looks: seq<Look>, b: int)
    requires Stretch(looks, b)
    ensures LastReset(looks) == if b == 0 && Revision(looks) == "" then ZERO_TIME else looks[b].resetAt
  {
    if b < |looks| - 1 {
      LastResetMeaning(looks[..|looks| - 1], b);
    }
  }

  /**
   * The lag clock was started by the first committed reconcile of the stretch, unless no reconcile has ever seen a
   * non-empty revision: then it still stands at the zero time.
   */
  lemma {:induction false} LagClockMeaning(looks: seq<Look>, b: int)
    requires Stretch(looks, b)
    ensures FleetAfter(looks).lastExpectedRevision == Revision(looks)
    ensures FleetAfter(looks).expectedRevisionSince == if b == 0 && Revision(looks) == "" then ZERO_TIME
            else looks[b].resetAt
  {
    FleetClock(looks);
    LastResetMeaning(looks, b);
  }

  /** A report fresh enough, not locally out of sync, and at another revision than expected. */
  predicate Behind(look: Look, rep: Report)
  {
    && Sub(look.now, rep.observedAt) <= StaleThreshold(look.spec)
    && !rep.syncStatus.OutOfSync?
    && rep.observedRevision != look.spec.expectedRevision
  }

  ghost predicate SomeBehind(look: Look)
  {
    exists i, j :: 0 <= i < |look.spec.targetClusters| && IsLast(look.reports, j, look.spec.targetClusters[i])
        && Behind(look, look.reports[j])
  }

  ghost predicate SomeLagging(rows: seq<Row>)
  {
    exists i :: 0 <= i < |rows| && rows[i].state.Lagging?
  }

  lemma {:induction false} RowLags(prev: Fleet, look: Look)
    ensures SomeLagging(Aggregate(prev, look).rows) <==>
        SomeBehind(look)
        && Sub(look.now, Since(prev, look)) > LagThreshold(look.spec)
  {
    var rows, targets := Aggregate(prev, look).rows, look.spec.targetClusters;
    RowFacts(prev, look);
    if SomeLagging(rows) {
      var i :| 0 <= i < |rows| && rows[i].state.Lagging?;
      RowsMatchTargets(prev, look, i);
      var j :| IsLast(look.reports, j, targets[i]) && Behind(look, look.reports[j]);
    }
    if SomeBehind(look) && Sub(look.now, Since(prev, look)) > LagThreshold(look.spec) {
      var i, j :| 0 <= i < |targets| && IsLast(look.reports, j, targets[i]) && Behind(look, look.reports[j]);
      RowsMatchTargets(prev, look, i);
      assert rows[i].state.Lagging?;
    }
  }

  /** The last of the reconciles publishes a Lagging row exactly when a report is behind and the clock ran too long. */
  lemma {:induction false} LastLags(looks: seq<Look>, b: int)
    requires ClockRuns(looks) && Stretch(looks, b)
    ensures var look := looks[|looks| - 1];
            SomeLagging(FleetAfter(looks).rows) <==>
            SomeBehind(look) && ((b == 0 && Revision(looks) == "")
                || look.now - looks[b].resetAt > LagThreshold(look.spec))
  {
    var n := |looks| - 1;
    var prev := FleetAfter(looks[..n]);
    LagClockMeaning(looks, b);
    RowLags(prev, looks[n]);
    assert Since(prev, looks[n]) == FleetAfter(looks).expectedRevisionSince;
  }

  /** Some committed reconcile more than the lag threshold ago, and every one since, saw the present revision. */
  ghost predicate SeenLongEnough(looks: seq<Look>)
    requires looks != []
  {
    var look := looks[|looks| - 1];
    exists k :: 0 <= k < |looks| && look.now - looks[k].resetAt > LagThreshold(look.spec)
                && forall i :: k <= i < |looks| ==> looks[i].spec.expectedRevision == Revision(looks)
  }

  ghost predicate AlwaysEmpty(looks: seq<Look>)
  {
    forall i :: 0 <= i < |looks| ==> looks[i].spec.expectedRevision == ""
  }

  lemma {:induction false} SeenLongEnoughFrom(looks: seq<Look>, b: int)
    requires ClockRuns(looks) && Stretch(looks, b)
    ensures SeenLongEnough(looks) <==> looks[|looks| - 1].now - looks[b].resetAt > LagThreshold(looks[|looks| - 1].spec)
  {
    if SeenLongEnough(looks) {
      var look := looks[|looks| - 1];
      var k :| 0 <= k < |looks| && look.now - looks[k].resetAt > LagThreshold(look.spec)
               && forall i :: k <= i < |looks| ==> looks[i].spec.expectedRevision == Revision(looks);
    }
  }

  /**
   * When a committed reconcile publishes a Lagging row although no reconcile has seen the revision for longer than the
   * threshold: exactly when the expected revision has been empty since creation, some report is behind, and the first
   * reconcile is within the threshold. In every other run Lagging means what it says.
   */
  lemma {:induction false} LaggingTooEarlyExactly(looks: seq<Look>)
    requires looks != [] && ClockRuns(looks)
    ensures var look := looks[|looks| - 1];
            SomeLagging(FleetAfter(looks).rows) && !SeenLongEnough(looks)
            <==> AlwaysEmpty(looks) && SomeBehind(look) && look.now - looks[0].resetAt <= LagThreshold(look.spec)
  {
    var b := StretchExists(looks);
    LastLags(looks, b);
    SeenLongEnoughFrom(looks, b);
    assert AlwaysEmpty(looks) <==> b == 0 && Revision(looks) == "";
  }

  /** A Lagging row means that every committed reconcile within the lag threshold saw the present revision. */
  lemma {:induction false} LaggingMeansNoRecentChange(looks: seq<Look>, i: int)
    requires looks != [] && ClockRuns(looks)
    requires SomeLagging(FleetAfter(looks).rows)
    requires 0 <= i < |looks| && looks[|looks| - 1].now - looks[i].now <= LagThreshold(looks[|looks| - 1].spec)
    ensures looks[i].spec.expectedRevision == Revision(looks)
  {
    var b := StretchExists(looks);
    LastLags(looks, b);
  }

  /**
   * The failing case is real: with an empty expected revision the very first reconcile calls a fresh report Lagging.
   */
  lemma {:induction false} LagsAtOnce(now: Time)
    requires now > MAX_DURATION
    ensures var rep := Report("east", "shop", "ns", "abc", Synced, Healthy, now, NO_POOL, NO_VIRT, NO_PLATFORM, [], [],
            []);
            var look := Look(Spec("shop", "", ["east"], 600, 900), [rep], now, now);
            ClockRuns([look]) && SomeLagging(FleetAfter([look]).rows) && !SeenLongEnough([look])
  {
    var rep := Report("east", "shop", "ns", "abc", Synced, Healthy, now, NO_POOL, NO_VIRT, NO_PLATFORM, [], [], []);
    var look := Look(Spec("shop", "", ["east"], 600, 900), [rep], now, now);
    assert IsLast(look.reports, 0, look.spec.targetClusters[0]) && Behind(look, look.reports[0]);
    LaggingTooEarlyExactly([look]);
  }

  // ----- the gauges -----

  /** Some cell of this cluster. */
  ghost predicate HasCell(cells: seq<Cell>, c: string)
  {
    exists i :: 0 <= i < |cells| && cells[i].row.clusterName == c
  }

  /** The gauges show some cell of this cluster. */
  ghost predicate ShowsCell(g: View, app: string, cells: seq<Cell>, c: string)
  {
    exists i :: 0 <= i < |cells| && cells[i].row.clusterName == c
                && Shows(g, app, c, cells[i].row.state, cells[i].lag, cells[i].age)
  }

  lemma {:induction false} ShownStaysShown(g: View, h: View, app: string, front: seq<Cell>, last: Cell, c: string)
    requires ShowsCell(g, app, front, c) && SameFor(h, g, app, c)
    ensures ShowsCell(h, app, front + [last], c)
  {
    var i :| 0 <= i < |front| && front[i].row.clusterName == c
             && Shows(g, app, c, front[i].row.state, front[i].lag, front[i].age);
    assert (front + [last])[i] == front[i];
  }

  lemma {:induction false} LastIsShown(g: View, app: string, front: seq<Cell>, last: Cell)
    requires Shows(g, app, last.row.clusterName, last.row.state, last.lag, last.age)
    ensures ShowsCell(g, app, front + [last], last.row.clusterName)
  {
    assert (front + [last])[|front|] == last;
  }

  lemma {:induction false} HasCellAppend(front: seq<Cell>, last: Cell, c: string)
    ensures HasCell(front + [last], c) <==> HasCell(front, c) || last.row.clusterName == c
  {
    if HasCell(front, c) {
      var i :| 0 <= i < |front| && front[i].row.clusterName == c;
      assert (front + [last])[i] == front[i];
    }
    assert (front + [last])[|front|] == last;
  }

  lemma {:induction false} RecordAllMeaning(g: View, app: string, cells: seq<Cell>, a: string, c: string)
    ensures if a == app && HasCell(cells, c) then ShowsCell(RecordAll(g, app, cells), app, cells, c)
            else SameFor(RecordAll(g, app, cells), g, a, c)
  {
    if cells != [] {
      var n := |cells| - 1;
      var front, last := cells[..n], cells[n];
      var before := RecordAll(g, app, front);
      assert cells == front + [last];
      RecordAllMeaning(g, app, front, a, c);
      HasCellAppend(front, last, c);
      RecordShows(before, app, last.row.clusterName, last.row.state, last.lag, last.age, a, c);
      if a == app && last.row.clusterName == c {
        LastIsShown(RecordAll(g, app, cells), app, front, last);
      } else if a == app && HasCell(front, c) {
        ShownStaysShown(before, RecordAll(g, app, cells), app, front, last, c);
      }
    }
  }

  ghost predicate Named(rows: seq<Row>, c: string)
  {
    exists i :: 0 <= i < |rows| && rows[i].clusterName == c
  }

  lemma {:induction false} DropGoneMeaning(g: View, app: string, rows: seq<Row>, kept: set<string>, a: string,
                                           c: string)
    ensures var r := DropGone(g, app, rows, kept);
            if a == app && c !in kept && Named(rows, c) then !Shown(r, a, c) else SameFor(r, g, a, c)
  {
    if rows != [] {
      var n := |rows| - 1;
      DropGoneMeaning(g, app, rows[..n], kept, a, c);
      DeleteHides(DropGone(g, app, rows[..n], kept), app, rows[n].clusterName, a, c);
      assert Named(rows, c) <==> Named(rows[..n], c) || rows[n].clusterName == c;
    }
  }

  /**
   * What a reconcile does to the gauges: every target shows the state, lag and age of its row; a former target shows
   * nothing; all other gauges stay.
   */
  lemma {:induction false} RegaugeMeaning(g: View, prev: Fleet, look: Look, a: string, c: string)
    ensures var r, app := Regauge(g, prev, look), look.spec.appName;
            var cell := CellFor(look.spec, Since(prev, look), look.now, ByCluster(look.reports), c);
            if a == app && c in look.spec.targetClusters then Shows(r, a, c, cell.row.state, cell.lag, cell.age)
            else if a == app && Named(prev.rows, c) then !Shown(r, a, c)
            else SameFor(r, g, a, c)
  {
    var cells := LookCells(prev, look);
    var app, targets := look.spec.appName, look.spec.targetClusters;
    var cell := CellFor(look.spec, Since(prev, look), look.now, ByCluster(look.reports), c);
    RecordAllMeaning(g, app, cells, a, c);
    DropGoneMeaning(RecordAll(g, app, cells), app, prev.rows, TargetSet(look.spec), a, c);
    CellsNamed(prev, look, c);
    if c in targets {
      var i :| 0 <= i < |targets| && targets[i] == c;
      assert cells[i].row.clusterName == c;
    }
  }

  /** The lag and age gauges of a target: no age without a report, and no lag unless it is behind. */
  ghost predicate ValuesFit(look: Look, since: Time, cluster: string, state: RowState, lag: int, age: int)
  {
    && lag == (if state.Lagging? || state.Propagating? then Sub(look.now, since) else 0)
    && (state.Missing? ==> age == -1)
    && (!state.Missing? ==> exists j ::
          IsLast(look.reports, j, cluster) && age == Sub(look.now, look.reports[j].observedAt))
  }

  /** The gauges show the state the target deserves, and fitting values. */
  ghost predicate Gauged(g: View, look: Look, since: Time, cluster: string)
  {
    exists state, lag, age ::
      && Shows(g, look.spec.appName, cluster, state, lag, age)
      && StateFits(look, since, cluster, state)
      && ValuesFit(look, since, cluster, state, lag, age)
  }

  lemma {:induction false} CellFits(look: Look, since: Time, cluster: string)
    ensures var cell := CellFor(look.spec, since, look.now, ByCluster(look.reports), cluster);
            && StateFits(look, since, cluster, cell.row.state)
            && ValuesFit(look, since, cluster, cell.row.state, cell.lag, cell.age)
  {
    ByClusterMeaning(look.reports, cluster);
  }

  /**
   * What a reconcile does to the gauges: every target shows the state it deserves with its lag and the age of its last
   * report; a former target shows nothing; all other gauges stay.
   */
  lemma {:induction false} GaugesAfterReconcile(g: View, prev: Fleet, look: Look, a: string, c: string)
    ensures var r := Regauge(g, prev, look);
            if a == look.spec.appName && c in look.spec.targetClusters then Gauged(r, look, Since(prev, look), c)
            else if a == look.spec.appName && Named(prev.rows, c) then !Shown(r, a, c)
            else SameFor(r, g, a, c)
  {
    RegaugeMeaning(g, prev, look, a, c);
    CellFits(look, Since(prev, look), c);
  }

  lemma {:induction false} CellsNamed(prev: Fleet, look: Look, c: string)
    ensures forall i :: 0 <= i < |LookCells(prev, look)| ==>
              var cell := LookCells(prev, look)[i];
              && cell.row.clusterName in look.spec.targetClusters
              && (cell.row.clusterName == c ==> cell == CellFor(look.spec, Since(prev, look), look.now,
                 ByCluster(look.reports), c))
    ensures |LookCells(prev, look)| == |look.spec.targetClusters|
    ensures forall i ::
        0 <= i < |look.spec.targetClusters|
        ==> LookCells(prev, look)[i].row.clusterName == look.spec.targetClusters[i]
  {
    var cells, targets := LookCells(prev, look), look.spec.targetClusters;
    forall i | 0 <= i < |cells|
      ensures cells[i].row.clusterName == targets[i]
      ensures cells[i] == CellFor(look.spec, Since(prev, look), look.now, ByCluster(look.reports), targets[i])
    {
    }
  }

  /**
   * A reconcile leaves gauges for exactly its targets if and only if every other cluster shown before has a stored row.
   */
  lemma {:induction false} GaugesAreTargetsExactly(g: View, prev: Fleet, look: Look)
    ensures var app, targets := look.spec.appName, look.spec.targetClusters;
            (forall c :: Shown(Regauge(g, prev, look), app, c) <==> c in targets)
            <==> (forall c :: Shown(g, app, c) && c !in targets ==> Named(prev.rows, c))
  {
    forall c ensures Shown(Regauge(g, prev, look), look.spec.appName, c)
                     <==> c in look.spec.targetClusters || (Shown(g, look.spec.appName, c) && !Named(prev.rows, c)) {
      RegaugeMeaning(g, prev, look, look.spec.appName, c);
    }
  }

  /** What deletion does: the clusters of the stored rows are dropped. */
  function Deleted(g: View, app: string, prev: Fleet): View { DropGone(g, app, prev.rows, {}) }

  /** Deletion leaves nothing of the application if and only if every cluster shown has a stored row. */
  lemma {:induction false} DeletionCleansExactly(g: View, app: string, prev: Fleet)
    ensures (forall c :: !Shown(Deleted(g, app, prev), app, c))
            <==> (forall c :: Shown(g, app, c) ==> Named(prev.rows, c))
  {
    forall c ensures Shown(Deleted(g, app, prev), app, c) <==> Shown(g, app, c) && !Named(prev.rows, c) {
      DropGoneMeaning(g, app, prev.rows, {}, app, c);
    }
  }

  /**
   * A reconcile whose write commits; one whose write fails; one that sees the object marked for deletion; the object
   * disappearing, which the aggregator meets as not found; a restart of the operator's process.
   */
  datatype Event = Committed(look: Look) | WriteFails(look: Look) | Finalized(app: string) | Removed | Restart

  datatype World = World(fleet: Fleet, gauges: View)

  function Next(w: World, e: Event): World
  {
    match e
    case Committed(look) => World(Aggregate(w.fleet, look), Regauge(w.gauges, w.fleet, look))
    case WriteFails(look) => World(w.fleet, Regauge(w.gauges, w.fleet, look))
    case Finalized(app) => World(w.fleet, Deleted(w.gauges, app, w.fleet))
    case Removed => World(NEW_FLEET, w.gauges)
    case Restart => World(w.fleet, EMPTY)
  }

  function After(events: seq<Event>): World
  {
    if events == [] then World(NEW_FLEET, EMPTY) else Next(After(events[..|events| - 1]), events[|events| - 1])
  }

  /** All writes commit, and all reconciles are about one application. */
  ghost predicate Quiet(events: seq<Event>, app: string)
  {
    forall i :: 0 <= i < |events| ==>
      || events[i].Restart?
      || events[i] == Finalized(app)
      || (events[i].Committed? && events[i].look.spec.appName == app)
  }

  /** The gauges are an index of the rows: they exist for exactly the rows' clusters, one-hot at each row's state. */
  ghost predicate IsIndex(w: World, app: string)
  {
    && (forall c :: Shown(w.gauges, app, c) <==> Named(w.fleet.rows, c))
    && forall i :: 0 <= i < |w.fleet.rows| ==> ShowsRow(w.gauges, app, w.fleet.rows[i])
  }

  ghost predicate ShowsRow(g: View, app: string, row: Row)
  {
    exists lag, age :: Shows(g, app, row.clusterName, row.state, lag, age)
  }

  /** No gauge survives its cluster's row. */
  ghost predicate NoStrays(w: World, app: string)
  {
    forall c :: Shown(w.gauges, app, c) ==> Named(w.fleet.rows, c)
  }

  lemma {:induction false} RowsNamed(prev: Fleet, look: Look, c: string)
    ensures Named(Aggregate(prev, look).rows, c) <==> c in look.spec.targetClusters
  {
    var rows, targets := Aggregate(prev, look).rows, look.spec.targetClusters;
    RowFacts(prev, look);
    if c in targets {
      var i :| 0 <= i < |targets| && targets[i] == c;
      assert rows[i].clusterName == c;
    }
  }

  lemma {:induction false} RowShown(g: View, prev: Fleet, look: Look, i: int)
    requires 0 <= i < |Aggregate(prev, look).rows|
    ensures ShowsRow(Regauge(g, prev, look), look.spec.appName, Aggregate(prev, look).rows[i])
  {
    var row := Aggregate(prev, look).rows[i];
    var cell := LookCells(prev, look)[i];
    RegaugeMeaning(g, prev, look, look.spec.appName, row.clusterName);
    CellsNamed(prev, look, row.clusterName);
    assert Shows(Regauge(g, prev, look), look.spec.appName, row.clusterName, row.state, cell.lag, cell.age);
  }

  lemma {:induction false} StepIndex(w: World, look: Look, app: string)
    requires look.spec.appName == app && NoStrays(w, app)
    ensures IsIndex(Next(w, Committed(look)), app)
  {
    var next := Next(w, Committed(look));
    GaugesAreTargetsExactly(w.gauges, w.fleet, look);
    forall c ensures Shown(next.gauges, app, c) <==> Named(next.fleet.rows, c) {
      RowsNamed(w.fleet, look, c);
    }
    forall i | 0 <= i < |next.fleet.rows| ensures ShowsRow(next.gauges, app, next.fleet.rows[i]) {
      RowShown(w.gauges, w.fleet, look, i);
    }
  }

  /**
   * Over every run whose writes commit: no gauge survives its cluster's row, right after a reconcile the gauges are an
   * index of the stored rows, and deletion at any time leaves nothing.
   */
  lemma {:induction false} GaugesIndexRows(events: seq<Event>, app: string)
    requires Quiet(events, app)
    ensures NoStrays(After(events), app)
    ensures events != [] && events[|events| - 1].Committed? ==> IsIndex(After(events), app)
    ensures forall c :: !Shown(Deleted(After(events).gauges, app, After(events).fleet), app, c)
  {
    var w := After(events);
    if events != [] {
      var n := |events| - 1;
      GaugesIndexRows(events[..n], app);
      if events[n].Committed? {
        StepIndex(After(events[..n]), events[n].look, app);
      } else if events[n].Finalized? {
        DeletionCleansExactly(After(events[..n]).gauges, app, After(events[..n]).fleet);
      }
    }
    DeletionCleansExactly(w.gauges, app, w.fleet);
  }

  /** A failed write leaks: the cluster it introduced keeps its gauges although it is neither a target nor a row. */
  lemma {:induction false} FailedWriteLeaks(now: Time)
    ensures var first := Look(Spec("shop", "v1", ["east"], 600, 900), [], now, now);
            var second := Look(Spec("shop", "v1", ["west"], 600, 900), [], now, now);
            var w := After([WriteFails(first), Committed(second)]);
            Shown(w.gauges, "shop", "east") && !Named(w.fleet.rows, "east")
  {
    var first := Look(Spec("shop", "v1", ["east"], 600, 900), [], now, now);
    var second := Look(Spec("shop", "v1", ["west"], 600, 900), [], now, now);
    var events := [WriteFails(first), Committed(second)];
    assert events[..1] == [WriteFails(first)] && events[..1][..0] == [];
    var w0, w1 := After([]), After(events[..1]);
    assert w1 == Next(w0, WriteFails(first));
    assert "east" in first.spec.targetClusters && "east" !in second.spec.targetClusters;
    RegaugeMeaning(w0.gauges, w0.fleet, first, "shop", "east");
    RegaugeMeaning(w1.gauges, w1.fleet, second, "shop", "east");
    CellsNamed(w1.fleet, second, "east");
  }

  /** The fleet status depends on the reconciles committed since the object was last removed, and on nothing else. */
  function Looks(events: seq<Event>): seq<Look>
  {
    if events == [] then []
    else
      var front := Looks(events[..|events| - 1]);
      var last := events[|events| - 1];
      if last.Committed? then front + [last.look] else if last.Removed? then [] else front
  }

  lemma {:induction false} OnlyCommitsCount(events: seq<Event>)
    ensures After(events).fleet == FleetAfter(Looks(events))
  {
    if events != [] {
      var front := Looks(events[..|events| - 1]);
      OnlyCommitsCount(events[..|events| - 1]);
      if events[|events| - 1].Committed? {
        assert (front + [events[|events| - 1].look])[..|front|] == front;
      }
    }
  }
}
