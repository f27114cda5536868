/**
 * Issues beside a passed validation. Nine gates never pass over a row they raised an issue about; the two last-writer
 * gates may, so a passed validation can still list issues. `PassedListsIssues` says exactly when.
 */
module GateIssues {
  import opened Base
  import opened Model
  import opened Gates
  import opened GateTheorems

  predicate Quiet(fs: seq<Finding>) { IssuesOf(fs) == [] }

  lemma {:induction false} QuietConcat(a: seq<Finding>, b: seq<Finding>)
    ensures Quiet(a + b) <==> Quiet(a) && Quiet(b)
  {
    IssuesConcat(a, b);
  }

  lemma {:induction false} QuietParts(gs: seq<Gate>, part: Gate -> seq<Finding>)
    ensures Quiet(Concat(gs, part)) <==> forall g :: g in gs ==> Quiet(part(g))
  {
    if gs != [] {
      var n := |gs| - 1;
      assert gs == gs[..n] + [gs[n]];
      QuietParts(gs[..n], part);
      QuietConcat(Concat(gs[..n], part), part(gs[n]));
    }
  }

  lemma {:induction false} QuietRows(visit: Visitor, app: string, rows: seq<Row>)
    ensures Quiet(RowsFindings(visit, app, rows)) <==> forall r :: r in rows ==> Quiet(visit(app, r))
  {
    if rows != [] {
      var n := |rows| - 1;
      assert rows == rows[..n] + [rows[n]];
      QuietRows(visit, app, rows[..n]);
      QuietConcat(RowsFindings(visit, app, rows[..n]), visit(app, rows[n]));
    }
  }

  ghost predicate QuietApp(visit: Visitor, hub: bool, states: map<string, AppState>, app: string)
  {
    Quiet(MissingFindings(hub, app, RowsOf(states, app))) && forall r ::
        r in RowsOf(states, app)
        ==> Quiet(visit(app, r))
  }

  lemma {:induction false} QuietScan(visit: Visitor, hub: bool, order: seq<string>, states: map<string, AppState>)
    ensures Quiet(Scan(visit, hub, order, states)) <==> forall a :: a in order ==> QuietApp(visit, hub, states, a)
  {
    if order != [] {
      var n := |order| - 1;
      var rows := RowsOf(states, order[n]);
      var head := Scan(visit, hub, order[..n], states);
      var missing := MissingFindings(hub, order[n], rows);
      assert order == order[..n] + [order[n]];
      QuietScan(visit, hub, order[..n], states);
      QuietRows(visit, order[n], rows);
      QuietConcat(head, missing);
      QuietConcat(head + missing, RowsFindings(visit, order[n], rows));
      assert Quiet(Scan(visit, hub, order, states)) <==> Quiet(head) && QuietApp(visit, hub, states, order[n]);
    }
  }

  /** Lists of findings in which every finding raises an issue: what the loops over a row's parts produce. */
  ghost predicate AllRaise(fs: seq<Finding>)
  {
    forall f :: f in fs ==> f.issue.Some?
  }

  lemma {:induction false} QuietMeansNone(fs: seq<Finding>)
    requires AllRaise(fs)
    ensures Quiet(fs) <==> fs == []
  {
    if fs != [] {
      assert fs[|fs| - 1] in fs;
    }
  }

  lemma {:induction false} OperatorsRaise(app: string, cluster: string, ops: seq<Operator>)
    ensures AllRaise(OperatorFindings(app, cluster, ops))
  {
    if ops != [] {
      OperatorsRaise(app, cluster, ops[..|ops| - 1]);
    }
  }

  lemma {:induction false} EventsRaise(app: string, cluster: string, start: Time, evs: seq<EventSummary>)
    ensures AllRaise(EventFindings(app, cluster, start, evs))
  {
    if evs != [] {
      EventsRaise(app, cluster, start, evs[..|evs| - 1]);
    }
  }

  lemma {:induction false} ObjectsRaise(app: string, cluster: string, ocs: seq<ObjectChange>)
    ensures AllRaise(ObjectFindings(app, cluster, ocs))
  {
    if ocs != [] {
      ObjectsRaise(app, cluster, ocs[..|ocs| - 1]);
    }
  }

  lemma {:induction false} DependenciesRaise(app: string, cluster: string, deps: seq<Dependency>)
    ensures AllRaise(DependencyFindings(app, cluster, deps))
  {
    if deps != [] {
      DependenciesRaise(app, cluster, deps[..|deps| - 1]);
    }
  }

  lemma {:induction false} PoolRaises(app: string, cluster: string, mcp: Pool)
    ensures AllRaise(PoolFindings(app, cluster, mcp))
  {
  }

  lemma {:induction false} VirtRaises(app: string, cluster: string, virt: Virt)
    ensures AllRaise(VirtFindings(app, cluster, virt))
  {
  }

  lemma {:induction false} NineGatesRaise(g: Gate, start: Time, app: string, row: Row)
    requires !LastWriter(g)
    ensures AllRaise(PartFor(g, start, app, row))
  {
    match g {
      case ClusterOperatorsHealthy => OperatorsRaise(app, row.clusterName, row.platform.operators);
      case EventsClean => EventsRaise(app, row.clusterName, start, row.recentEvents);
      case ObjectsConverged => ObjectsRaise(app, row.clusterName, row.objectChanges);
      case DependenciesReady => DependenciesRaise(app, row.clusterName, row.dependencies);
      case MCPUpdatedOnTime => PoolRaises(app, row.clusterName, row.pool);
      case VirtImpactPassed => VirtRaises(app, row.clusterName, row.virt);
      case _ =>
    }
  }

  lemma {:induction false} QuietOne(f: Finding)
    ensures Quiet([f]) <==> f.issue.None?
  {
    assert [f][..0] == [];
    assert IssuesOf([f]) == IssuesOf([]) + if f.issue.Some? then [f.issue.value] else [];
  }

  /** What a row must be like for a gate to raise no issue about it. */
  predicate Unobjectionable(g: Gate, start: Time, row: Row)
  {
    if LastWriter(g) then Reported(g, row) ==> RowSatisfies(g, start, row) else RowSatisfies(g, start, row)
  }

  lemma {:induction false} QuietVersion(start: Time, app: string, row: Row)
    ensures Quiet(PartFor(ClusterVersionStable, start, app, row)) <==> Unobjectionable(ClusterVersionStable, start, row)
  {
    var part := VersionFindings(app, row.clusterName, row.platform.clusterVersion);
    if part != [] {
      assert part == [part[0]];
      QuietOne(part[0]);
    }
  }

  lemma {:induction false} QuietPlatform(start: Time, app: string, row: Row)
    ensures Quiet(PartFor(PlatformOperatorsDeployed, start, app, row))
            <==> Unobjectionable(PlatformOperatorsDeployed, start, row)
  {
    var part := PlatformFindings(app, row.clusterName, row.platform);
    if part != [] {
      assert part == [part[0]];
      QuietOne(part[0]);
    }
  }

  lemma {:induction false} QuietPart(g: Gate, start: Time, app: string, row: Row)
    ensures Quiet(PartFor(g, start, app, row)) <==> Unobjectionable(g, start, row)
  {
    if g == ClusterVersionStable {
      QuietVersion(start, app, row);
    } else if g == PlatformOperatorsDeployed {
      QuietPlatform(start, app, row);
    } else {
      NineGatesRaise(g, start, app, row);
      QuietMeansNone(PartFor(g, start, app, row));
      NothingFound(g, start, app, row);
    }
  }

  ghost predicate RowUnobjectionable(start: Time, row: Row)
  {
    forall g: Gate :: Unobjectionable(g, start, row)
  }

  lemma {:induction false} QuietRow(start: Time, app: string, row: Row)
    ensures Quiet(VisitFrom(start)(app, row)) <==> RowUnobjectionable(start, row)
  {
    var part := RowPart(start, app, row);
    QuietParts(Visits(row), part);
    forall g: Gate ensures g in Visits(row) && (Quiet(part(g)) <==> Unobjectionable(g, start, row)) {
      VisitsAreComplete(g, row);
      QuietPart(g, start, app, row);
    }
  }

  /** Every row that reports on the two last-writer gates is good on them, not only the last. */
  ghost predicate AllReportersGood(start: Time, states: map<string, AppState>)
  {
    forall a, r, g :: RowIn(states, a, r) && LastWriter(g) && Reported(g, r) ==> RowSatisfies(g, start, r)
  }

  lemma {:induction false} NineGatesSilent(spec: WindowSpec, hub: bool, states: map<string, AppState>, app: string,
                                           row: Row)
    requires NineGatesHold(spec, hub, states) && RowIn(states, app, row)
    ensures RowUnobjectionable(spec.startTime, row)
       <==> forall g :: LastWriter(g) && Reported(g, row) ==> RowSatisfies(g, spec.startTime, row)
  {
    forall g: Gate | !LastWriter(g) ensures Unobjectionable(g, spec.startTime, row) {
      assert GateHolds(g, spec, hub, states);
      assert GateTheorems.Good(g, spec.startTime)(row);
    }
    if forall g :: LastWriter(g) && Reported(g, row) ==> RowSatisfies(g, spec.startTime, row) {
      forall g: Gate ensures Unobjectionable(g, spec.startTime, row) {
      }
    } else {
      var g :| LastWriter(g) && Reported(g, row) && !RowSatisfies(g, spec.startTime, row);
      assert !Unobjectionable(g, spec.startTime, row);
    }
  }

  function NoObjection(start: Time): Row -> bool
  {
    row => forall g: Gate | g in GATES :: Unobjectionable(g, start, row)
  }

  /** With every application reporting, or on a hub, the loops raise no issue exactly when no visit does. */
  lemma {:induction false} ScanQuietMeans(visit: Visitor, good: Row -> bool, hub: bool, order: seq<string>,
                                          states: map<string, AppState>)
    requires Enumerates(order, states.Keys) && (hub || NoAppEmpty(states))
    requires forall a, r :: Quiet(visit(a, r)) <==> good(r)
    ensures Quiet(Scan(visit, hub, order, states)) <==> AllRows(states, good)
  {
    QuietScan(visit, hub, order, states);
    VisitedRowsAreAllRows(order, states, good);
  }

  lemma {:induction false} VisitsQuiet(start: Time)
    ensures forall a, r :: Quiet(VisitFrom(start)(a, r)) <==> NoObjection(start)(r)
  {
    forall a, r ensures Quiet(VisitFrom(start)(a, r)) <==> NoObjection(start)(r) {
      QuietRow(start, a, r);
      forall g: Gate ensures g in GATES {
        GatesComplete(g);
      }
    }
  }

  lemma {:induction false} ReportersDecide(spec: WindowSpec, hub: bool, states: map<string, AppState>)
    requires NineGatesHold(spec, hub, states)
    ensures AllRows(states, NoObjection(spec.startTime)) <==> AllReportersGood(spec.startTime, states)
  {
    forall a, r | RowIn(states, a, r)
      ensures NoObjection(spec.startTime)(r) <==> forall g ::
          LastWriter(g) && Reported(g, r)
          ==> RowSatisfies(g, spec.startTime, r)
    {
      NineGatesSilent(spec, hub, states, a, r);
      forall g: Gate ensures g in GATES {
        GatesComplete(g);
      }
    }
  }

  /** With scope configured, rows seen and nobody silent, the issues are those the loops raised. */
  lemma {:induction false} OnlyScanIssues(spec: WindowSpec, hub: bool, order: seq<string>, states: map<string,
                                          AppState>,
                                          prev: seq<GateResult>, now: Time)
    requires Enumerates(order, states.Keys) && SomeRow(states) && spec.impactedApps != []
    ensures Evaluate(spec, hub, order, states, [], prev,
            now).issues == IssuesOf(Scan(VisitFrom(spec.startTime), hub, order, states))
  {
    RowsExist(order, states, AllChangesApplied);
  }

  lemma {:induction false} ScopeOfPassed(spec: WindowSpec, hub: bool, states: map<string, AppState>)
    requires NineGatesHold(spec, hub, states)
    ensures SomeRow(states) && (hub || NoAppEmpty(states))
  {
    assert GateHolds(AllChangesApplied, spec, hub, states);
  }

  /** A passed validation lists no issue exactly when every reporting row is good on the two last-writer gates. */
  lemma {:induction false} PassedListsIssues(spec: WindowSpec, hub: bool, order: seq<string>, states: map<string,
                                             AppState>,
                                             silent: seq<SilentCluster>, prev: seq<GateResult>, now: Time)
    requires Enumerates(order, states.Keys)
    requires Evaluate(spec, hub, order, states, silent, prev, now).passed
    ensures Evaluate(spec, hub, order, states, silent, prev, now).issues == []
            <==> AllReportersGood(spec.startTime, states)
  {
    PassedMeaning(spec, hub, order, states, silent, prev, now);
    ScopeOfPassed(spec, hub, states);
    OnlyScanIssues(spec, hub, order, states, prev, now);
    VisitsQuiet(spec.startTime);
    ScanQuietMeans(VisitFrom(spec.startTime), NoObjection(spec.startTime), hub, order, states);
    ReportersDecide(spec, hub, states);
  }

  // ----- it happens -----

  const STABLE := ClusterVersion("4.16", "4.16", false, true)
  const UPGRADING := ClusterVersion("4.15", "4.16", true, true)
  const DEPLOYED := VirtOperator("Deployed", "1.2", true)

  function RowWith(cluster: string, cv: ClusterVersion): Row
  {
    Row(cluster, "ns", "abc", Synced, Healthy, 100, false,
        Pool("worker", 3, 3, 0, 0, 0, "r1", "r1", PoolUpdated),
        Virt(HcoHealthy, true, 0, 0),
        Platform([Operator("network", true, false, "4.16")], [], Virt(HcoHealthy, true, 0, 0), cv, DEPLOYED, DEPLOYED,
            DEPLOYED, 0),
        InSync, [], [], [])
  }

  const MIXED: map<string, AppState> :=
    map["shop" := AppState(FleetSynced, [RowWith("east", UPGRADING), RowWith("west", STABLE)])]

  const SHOP_WINDOW := WindowSpec("CHG1", ["shop"], 50, 500, 0, 300, 2, 180)

  lemma {:induction false} RowOfMixed(app: string, row: Row)
    requires RowIn(MIXED, app, row)
    ensures row == RowWith("east", UPGRADING) || row == RowWith("west", STABLE)
  {
  }

  /**
   * One cluster is still upgrading, yet the validation passes, because the row visited last is stable; the issue stays
   * listed.
   */
  lemma {:induction false} PassesWithAnIssue()
    ensures var v := Evaluate(SHOP_WINDOW, false, ["shop"], MIXED, [], [], 100);
            v.passed && v.issues != []
  {
    var first, last := RowWith("east", UPGRADING), RowWith("west", STABLE);
    var start := SHOP_WINDOW.startTime;
    assert MIXED["shop"].rows == [first, last];
    assert RowIn(MIXED, "shop", first) && RowIn(MIXED, "shop", last);
    forall g: Gate | !LastWriter(g) ensures GateHolds(g, SHOP_WINDOW, false, MIXED) {
      forall a, r | RowIn(MIXED, a, r) ensures GateTheorems.Good(g, start)(r) {
        RowOfMixed(a, r);
      }
      assert Reported(g, last);
    }
    assert ["shop"][..0] == [];
    var flat := Flatten(["shop"], MIXED);
    assert flat == Flatten([], MIXED) + Place("shop", RowsOf(MIXED, "shop"));
    assert flat == [Placed("shop", first), Placed("shop", last)];
    assert LastSayHolds(ClusterVersionStable, start, ["shop"], MIXED);
    assert LastSayHolds(PlatformOperatorsDeployed, start, ["shop"], MIXED);
    PassedMeaning(SHOP_WINDOW, false, ["shop"], MIXED, [], [], 100);
    PassedListsIssues(SHOP_WINDOW, false, ["shop"], MIXED, [], [], 100);
    assert LastWriter(ClusterVersionStable) && Reported(ClusterVersionStable, first);
  }
}
