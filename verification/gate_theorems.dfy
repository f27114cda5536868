/** What the gate evaluator decides, said without reference to any iteration order. */
module GateTheorems {
  import opened Base
  import opened Model
  import opened Gates

  /** The two gates a later row may turn back to True. */
  predicate LastWriter(g: Gate)
  {
    g == ClusterVersionStable || g == PlatformOperatorsDeployed
  }

  predicate PoolSettled(mcp: Pool)
  {
    && mcp.phase != PoolDegraded && mcp.degradedNodeCount <= 0
    && mcp.phase != PoolUpdating && mcp.updatingNodeCount <= 0 && mcp.unavailableNodeCount <= 0
    && (mcp.machineCount > 0 ==> mcp.readyMachineCount >= mcp.machineCount)
    && (mcp.desiredRenderedConfig != "" && mcp.currentRenderedConfig != ""
        ==> mcp.desiredRenderedConfig == mcp.currentRenderedConfig)
  }

  /** The demand a gate makes of every single row. */
  predicate RowSatisfies(g: Gate, start: Time, row: Row)
  {
    match g
    case ClusterOperatorsHealthy => forall o :: o in row.platform.operators ==> o.available && !o.degraded
    case AllChangesApplied => row.state == InSync
    case HealthCheckPassed => row.health == Healthy
    case MCPUpdatedOnTime => Reported(g, row) ==> PoolSettled(row.pool)
    case EventsClean => forall e :: e in row.recentEvents ==> e.lastObservedAt < start
    case ObjectsConverged => forall oc :: oc in row.objectChanges ==> !SyncFailed(oc.changeType)
    case DependenciesReady => forall d :: d in row.dependencies ==> d.ready
    case VirtImpactPassed =>
      && row.virt.hyperConverged != HcoDegraded && row.virt.virtHandlerReady
      && row.virt.stalledMigrations <= 0 && row.virt.unmigratableVMIs <= 0
    case NoActiveNodeMaintenance => row.platform.activeMaintenanceNodes <= 0
    case ClusterVersionStable => row.platform.clusterVersion.available && !row.platform.clusterVersion.progressing
    case PlatformOperatorsDeployed => row.platform.kubeVirt.ready && row.platform.cdi.ready && row.platform.ssp.ready
  }

  // ----- how single findings add up -----

  ghost predicate Concerns(fs: seq<Finding>, g: Gate)
  {
    exists f :: f in fs && f.gate == g
  }

  lemma {:induction false} SettleUntouched(g: Gate, first: Verdict, fs: seq<Finding>)
    requires !Concerns(fs, g)
    ensures Settle(g, first, fs) == first
  {
    if fs != [] {
      var n := |fs| - 1;
      assert fs[n] in fs;
      assert forall f :: f in fs[..n] ==> f in fs;
      SettleUntouched(g, first, fs[..n]);
    }
  }

  /** A gate no finding can turn True is True at the end exactly when nothing was found against it. */
  lemma {:induction false} SettleTrue(g: Gate, first: Verdict, fs: seq<Finding>)
    requires forall f :: f in fs && f.gate == g ==> f.verdict.status != GateTrue
    ensures Settle(g, first, fs).status == GateTrue <==> first.status == GateTrue && !Concerns(fs, g)
  {
    if fs != [] {
      var n := |fs| - 1;
      assert fs[n] in fs;
      assert fs == fs[..n] + [fs[n]];
      SettleTrue(g, first, fs[..n]);
    }
  }

  lemma {:induction false} SettleParts(gs: seq<Gate>, part: Gate -> seq<Finding>, g: Gate, first: Verdict)
    requires forall i, j :: 0 <= i < j < |gs| ==> gs[i] != gs[j]
    requires forall g', f :: f in part(g') ==> f.gate == g'
    ensures Settle(g, first, Concat(gs, part)) == if g in gs then Settle(g, first, part(g)) else first
  {
    if gs != [] {
      var n := |gs| - 1;
      assert gs == gs[..n] + [gs[n]];
      SettleParts(gs[..n], part, g, first);
      var head := Concat(gs[..n], part);
      SettleConcat(g, first, head, part(gs[n]));
      if g != gs[n] {
        SettleUntouched(g, Settle(g, first, head), part(gs[n]));
      }
    }
  }

  /** Every gate is visited exactly once per row. */
  lemma {:induction false} VisitsAreComplete(g: Gate, row: Row)
    ensures g in Visits(row)
    ensures forall i, j :: 0 <= i < j < |Visits(row)| ==> Visits(row)[i] != Visits(row)[j]
  {
    var at: nat :=
      match g
      case ClusterOperatorsHealthy => 0
      case AllChangesApplied => 1
      case HealthCheckPassed => 2
      case MCPUpdatedOnTime => 3
      case EventsClean => 4
      case ObjectsConverged => 5
      case DependenciesReady => 6
      case VirtImpactPassed => 7
      case ClusterVersionStable => 8
      case PlatformOperatorsDeployed => 9
      case NoActiveNodeMaintenance => 10;
    assert Visits(row)[at] == g;
  }

  /** Of all the findings of a row, only the part about `g` bears on `g`. */
  lemma {:induction false} SettleRow(g: Gate, first: Verdict, start: Time, app: string, row: Row)
    ensures Settle(g, first, RowFindings(start, app, row)) == Settle(g, first, PartFor(g, start, app, row))
  {
    VisitsAreComplete(g, row);
    SettleParts(Visits(row), RowPart(start, app, row), g, first);
  }

  /** Nothing is found against a row exactly when it meets the gate's demand. */
  lemma {:induction false} NothingFound(g: Gate, start: Time, app: string, row: Row)
    requires !LastWriter(g)
    ensures PartFor(g, start, app, row) == [] <==> RowSatisfies(g, start, row)
  {
  }

  /** One row leaves a True gate True exactly when it meets the gate's demand, and never repairs a gate. */
  lemma {:induction false} RowVerdict(g: Gate, first: Verdict, start: Time, app: string, row: Row)
    requires !LastWriter(g)
    ensures Settle(g, first, RowFindings(start, app, row)).status == GateTrue
       <==> first.status == GateTrue && RowSatisfies(g, start, row)
  {
    SettleRow(g, first, start, app, row);
    var part := PartFor(g, start, app, row);
    SettleTrue(g, first, part);
    if part != [] {
      assert part[0] in part && part[0].gate == g;
    }
    NothingFound(g, start, app, row);
  }

  /** On the two last-writer gates a reporting row has the only say; a silent row has none. */
  lemma {:induction false} LastWriterRowVerdict(g: Gate, first: Verdict, start: Time, app: string, row: Row)
    requires LastWriter(g)
    ensures Settle(g, first, RowFindings(start, app, row)).status
         == if !Reported(g, row) then first.status
            else if RowSatisfies(g, start, row) then GateTrue else GateFalse
  {
    SettleRow(g, first, start, app, row);
    var part := PartFor(g, start, app, row);
    assert |part| <= 1;
    if |part| == 1 {
      assert part[..0] == [];
    }
  }

  // ----- nine gates: a condition on all rows -----

  /** One visit leaves a True gate True exactly on good rows, and never repairs it. */
  ghost predicate Judges(visit: Visitor, g: Gate, good: Row -> bool)
  {
    forall v, app, row :: Settle(g, v, visit(app, row)).status == GateTrue <==> v.status == GateTrue && good(row)
  }

  lemma {:induction false} RowsVerdict(visit: Visitor, g: Gate, good: Row -> bool, first: Verdict, app: string,
                                       rows: seq<Row>)
    requires Judges(visit, g, good)
    ensures Settle(g, first, RowsFindings(visit, app, rows)).status == GateTrue
       <==> first.status == GateTrue && forall r :: r in rows ==> good(r)
  {
    if rows != [] {
      var n := |rows| - 1;
      assert rows == rows[..n] + [rows[n]];
      RowsVerdict(visit, g, good, first, app, rows[..n]);
      SettleConcat(g, first, RowsFindings(visit, app, rows[..n]), visit(app, rows[n]));
    }
  }

  /** A hub may have applications without rows; elsewhere such an application spoils `AllChangesApplied`. */
  predicate MissingSpoils(g: Gate, hub: bool) { g == AllChangesApplied && !hub }

  lemma {:induction false} MissingVerdict(g: Gate, first: Verdict, hub: bool, app: string, rows: seq<Row>)
    ensures Settle(g, first, MissingFindings(hub, app, rows)).status == GateTrue
       <==> first.status == GateTrue && !(MissingSpoils(g, hub) && rows == [])
  {
    var missing := MissingFindings(hub, app, rows);
    SettleTrue(g, first, missing);
    if missing != [] {
      assert missing[0] in missing;
    }
  }

  /** The findings of one more application, taken one list at a time. */
  lemma {:induction false} ScanStep(visit: Visitor, g: Gate, first: Verdict, hub: bool, order: seq<string>,
                                    states: map<string, AppState>)
    requires order != []
    ensures var n, rows := |order| - 1, RowsOf(states, order[|order| - 1]);
            var head := Settle(g, first, Scan(visit, hub, order[..n], states));
            var missing := Settle(g, head, MissingFindings(hub, order[n], rows));
            Settle(g, first, Scan(visit, hub, order, states)) == Settle(g, missing, RowsFindings(visit, order[n], rows))
  {
    var n := |order| - 1;
    var rows := RowsOf(states, order[n]);
    var head, missing := Scan(visit, hub, order[..n], states), MissingFindings(hub, order[n], rows);
    SettleConcat(g, first, head + missing, RowsFindings(visit, order[n], rows));
    SettleConcat(g, first, head, missing);
  }

  lemma {:induction false} ScanVerdict(visit: Visitor, g: Gate, good: Row -> bool, first: Verdict, hub: bool,
                                       order: seq<string>, states: map<string, AppState>)
    requires Judges(visit, g, good)
    ensures Settle(g, first, Scan(visit, hub, order, states)).status == GateTrue
       <==> && first.status == GateTrue
            && (forall a, r :: a in order && r in RowsOf(states, a) ==> good(r))
            && (MissingSpoils(g, hub) ==> forall a :: a in order ==> RowsOf(states, a) != [])
  {
    if order != [] {
      var n := |order| - 1;
      assert order == order[..n] + [order[n]];
      var rows := RowsOf(states, order[n]);
      ScanStep(visit, g, first, hub, order, states);
      var head := Settle(g, first, Scan(visit, hub, order[..n], states));
      ScanVerdict(visit, g, good, first, hub, order[..n], states);
      MissingVerdict(g, head, hub, order[n], rows);
      RowsVerdict(visit, g, good, Settle(g, head, MissingFindings(hub, order[n], rows)), order[n], rows);
    }
  }

  ghost predicate AllRows(states: map<string, AppState>, good: Row -> bool)
  {
    forall a, r :: RowIn(states, a, r) ==> good(r)
  }

  function Good(g: Gate, start: Time): Row -> bool
  {
    row => RowSatisfies(g, start, row)
  }

  ghost predicate NoAppEmpty(states: map<string, AppState>)
  {
    forall a :: a in states ==> states[a].rows != []
  }

  ghost predicate SomeRow(states: map<string, AppState>)
  {
    exists a, r :: RowIn(states, a, r)
  }

  ghost predicate SomeReport(g: Gate, states: map<string, AppState>)
  {
    exists a, r :: RowIn(states, a, r) && Reported(g, r)
  }

  /** What a gate that is not a last-writer gate requires of the whole collection of rows. */
  ghost predicate GateHolds(g: Gate, spec: WindowSpec, hub: bool, states: map<string, AppState>)
  {
    && AllRows(states, Good(g, spec.startTime))
    && match g
       case NoActiveNodeMaintenance => true
       case AllChangesApplied => spec.impactedApps != [] && SomeRow(states) && (hub || NoAppEmpty(states))
       case ClusterOperatorsHealthy | MCPUpdatedOnTime | VirtImpactPassed => SomeReport(g, states)
       case _ => SomeRow(states)
  }

  lemma {:induction false} RowsExist(order: seq<string>, states: map<string, AppState>, g: Gate)
    requires Enumerates(order, states.Keys)
    ensures AnyReported(g, Flatten(order, states)) <==> SomeReport(g, states)
    ensures |Flatten(order, states)| == 0 <==> !SomeRow(states)
    ensures SomeReport(g, states) ==> SomeRow(states)
  {
    VisitsEveryRow(order, states);
    var rows := Flatten(order, states);
    if a, r :| RowIn(states, a, r) && Reported(g, r) {
      assert Placed(a, r) in rows;
    }
    if a, r :| RowIn(states, a, r) {
      assert Placed(a, r) in rows;
    }
    if rows != [] {
      assert rows[0] in rows;
      assert RowIn(states, rows[0].app, rows[0].row);
    }
  }

  lemma {:induction false} FinishTrue(g: Gate, v: Verdict, reported: bool, total: nat)
    requires total == 0 ==> !reported
    ensures Finish(g, v, reported, total).status == GateTrue
       <==> && v.status == GateTrue
            && match g
               case ClusterOperatorsHealthy | MCPUpdatedOnTime | VirtImpactPassed => reported
               case NoActiveNodeMaintenance | ClusterVersionStable | PlatformOperatorsDeployed => true
               case _ => total > 0
  {
  }

  lemma {:induction false} RowsAreJudged(g: Gate, start: Time)
    requires !LastWriter(g)
    ensures Judges(VisitFrom(start), g, Good(g, start))
  {
    forall v, app, row ensures Settle(g, v, VisitFrom(start)(app, row)).status == GateTrue
                          <==> v.status == GateTrue && Good(g, start)(row) {
      RowVerdict(g, v, start, app, row);
    }
  }

  lemma {:induction false} VisitedRowsAreAllRows(order: seq<string>, states: map<string, AppState>, good: Row -> bool)
    requires Enumerates(order, states.Keys)
    ensures AllRows(states, good) <==> forall a, r :: a in order && r in RowsOf(states, a) ==> good(r)
    ensures NoAppEmpty(states) <==> forall a :: a in order ==> RowsOf(states, a) != []
  {
    assert forall a, r :: RowIn(states, a, r) <==> a in order && r in RowsOf(states, a);
    assert forall a :: a in order <==> a in states;
  }

  /** The same for any visit and any order of the map. */
  lemma {:induction false} ScanOverMap(visit: Visitor, g: Gate, good: Row -> bool, first: Verdict, hub: bool,
                                       order: seq<string>, states: map<string, AppState>)
    requires Judges(visit, g, good) && Enumerates(order, states.Keys)
    ensures Settle(g, first, Scan(visit, hub, order, states)).status == GateTrue
       <==> first.status == GateTrue && AllRows(states, good) && (MissingSpoils(g, hub) ==> NoAppEmpty(states))
  {
    ScanVerdict(visit, g, good, first, hub, order, states);
    VisitedRowsAreAllRows(order, states, good);
  }

  lemma {:induction false} OpensTrue(g: Gate, spec: WindowSpec)
    requires !LastWriter(g)
    ensures InitialVerdict(spec, g).status == GateTrue <==> (g == AllChangesApplied ==> spec.impactedApps != [])
  {
  }

  lemma {:induction false} SettledMeaning(g: Gate, spec: WindowSpec, hub: bool, order: seq<string>, states: map<string,
                                          AppState>)
    requires !LastWriter(g)
    requires Enumerates(order, states.Keys)
    ensures Settle(g, InitialVerdict(spec, g), Scan(VisitFrom(spec.startTime), hub, order, states)).status == GateTrue
       <==> && AllRows(states, Good(g, spec.startTime))
            && (g == AllChangesApplied ==> spec.impactedApps != [] && (hub || NoAppEmpty(states)))
  {
    RowsAreJudged(g, spec.startTime);
    OpensTrue(g, spec);
    ScanOverMap(VisitFrom(spec.startTime), g, Good(g, spec.startTime), InitialVerdict(spec, g), hub, order, states);
  }

  /** Nine gates mean what they say: True exactly when their formula holds, whatever the iteration order. */
  lemma {:induction false} GateMeaning(g: Gate, spec: WindowSpec, hub: bool, order: seq<string>, states: map<string,
                                       AppState>)
    requires !LastWriter(g)
    requires Enumerates(order, states.Keys)
    ensures FinalVerdict(spec, hub, order, states, g).status == GateTrue <==> GateHolds(g, spec, hub, states)
  {
    var rows := Flatten(order, states);
    SettledMeaning(g, spec, hub, order, states);
    RowsExist(order, states, g);
    FinishTrue(g, Settle(g, InitialVerdict(spec, g), Scan(VisitFrom(spec.startTime), hub, order, states)),
        AnyReported(g, rows), |rows|);
  }

  // ----- two gates: the last reporting row decides -----

  function LastSay(says: Row -> bool, rows: seq<Placed>): Option<Row>
  {
    if rows == [] then None
    else
      var n := |rows| - 1;
      if says(rows[n].row) then Some(rows[n].row) else LastSay(says, rows[..n])
  }

  lemma {:induction false} LastSayConcat(says: Row -> bool, a: seq<Placed>, b: seq<Placed>)
    ensures LastSay(says, a + b) == if LastSay(says, b).Some? then LastSay(says, b) else LastSay(says, a)
  {
    if b == [] {
      assert a + b == a;
    } else {
      var n := |b| - 1;
      assert (a + b)[..|a + b| - 1] == a + b[..n];
      LastSayConcat(says, a, b[..n]);
    }
  }

  lemma {:induction false} LastSayIsReporting(says: Row -> bool, rows: seq<Placed>)
    ensures LastSay(says, rows).Some? <==> exists p :: p in rows && says(p.row)
    ensures LastSay(says, rows).Some? ==> exists p :: p in rows && p.row == LastSay(says, rows).value && says(p.row)
  {
    if rows != [] {
      var n := |rows| - 1;
      assert rows == rows[..n] + [rows[n]];
      assert rows[n] in rows;
      LastSayIsReporting(says, rows[..n]);
    }
  }

  function StatusOf(good: Row -> bool, first: GateStatus, say: Option<Row>): GateStatus
  {
    if say.None? then first else if good(say.value) then GateTrue else GateFalse
  }

  /** A visit to a reporting row settles the gate; a visit to a silent one leaves it alone. */
  ghost predicate Speaks(visit: Visitor, g: Gate, says: Row -> bool, good: Row -> bool)
  {
    forall v, app, row :: Settle(g, v, visit(app, row)).status == StatusOf(good, v.status, if says(row) then Some(row)
      else None)
  }

  lemma {:induction false} RowsSay(visit: Visitor, g: Gate, says: Row -> bool, good: Row -> bool, first: Verdict,
                                   app: string, rows: seq<Row>)
    requires Speaks(visit, g, says, good)
    ensures Settle(g, first, RowsFindings(visit, app, rows)).status == StatusOf(good, first.status,
            LastSay(says, Place(app, rows)))
  {
    if rows != [] {
      var n := |rows| - 1;
      assert Place(app, rows)[..n] == Place(app, rows[..n]);
      RowsSay(visit, g, says, good, first, app, rows[..n]);
      SettleConcat(g, first, RowsFindings(visit, app, rows[..n]), visit(app, rows[n]));
    }
  }

  lemma {:induction false} ScanSay(visit: Visitor, g: Gate, says: Row -> bool, good: Row -> bool, first: Verdict,
                                   hub: bool,
                                   order: seq<string>, states: map<string, AppState>)
    requires LastWriter(g) && Speaks(visit, g, says, good)
    ensures Settle(g, first, Scan(visit, hub, order, states)).status == StatusOf(good, first.status,
            LastSay(says, Flatten(order, states)))
  {
    if order != [] {
      var n := |order| - 1;
      var rows := RowsOf(states, order[n]);
      ScanStep(visit, g, first, hub, order, states);
      var head := Settle(g, first, Scan(visit, hub, order[..n], states));
      ScanSay(visit, g, says, good, first, hub, order[..n], states);
      SettleUntouched(g, head, MissingFindings(hub, order[n], rows));
      RowsSay(visit, g, says, good, head, order[n], rows);
      LastSayConcat(says, Flatten(order[..n], states), Place(order[n], rows));
    }
  }

  function Reports(g: Gate): Row -> bool
  {
    row => Reported(g, row)
  }

  /** The row whose word is final on `g`, if any row reports at all. */
  function FinalWord(g: Gate, order: seq<string>, states: map<string, AppState>): Option<Row>
  {
    LastSay(Reports(g), Flatten(order, states))
  }

  lemma {:induction false} RowsSpeak(g: Gate, start: Time)
    requires LastWriter(g)
    ensures Speaks(VisitFrom(start), g, Reports(g), Good(g, start))
  {
    forall v, app, row ensures Settle(g, v, VisitFrom(start)(app, row)).status
                            == StatusOf(Good(g, start), v.status, if Reports(g)(row) then Some(row) else None) {
      LastWriterRowVerdict(g, v, start, app, row);
    }
  }

  /** The other two gates repeat the last reporting row, and are Unknown when no row reports. */
  lemma {:induction false} LastWriterGates(g: Gate, spec: WindowSpec, hub: bool, order: seq<string>,
                                           states: map<string, AppState>)
    requires LastWriter(g)
    ensures FinalVerdict(spec, hub, order, states, g).status
         == var say := FinalWord(g, order, states);
            if say.None? then GateUnknown else if RowSatisfies(g, spec.startTime, say.value) then GateTrue
                else GateFalse
  {
    RowsSpeak(g, spec.startTime);
    ScanSay(VisitFrom(spec.startTime), g, Reports(g), Good(g, spec.startTime), InitialVerdict(spec, g), hub, order,
        states);
  }

  // ----- the verdict as a whole -----

  predicate LastSayHolds(g: Gate, start: Time, order: seq<string>, states: map<string, AppState>)
  {
    var say := FinalWord(g, order, states);
    say.Some? && RowSatisfies(g, start, say.value)
  }

  lemma {:induction false} GatesComplete(g: Gate)
    ensures g in GATES
  {
    var at: nat :=
      match g
      case ClusterVersionStable => 0
      case ClusterOperatorsHealthy => 1
      case PlatformOperatorsDeployed => 2
      case MCPUpdatedOnTime => 3
      case NoActiveNodeMaintenance => 4
      case AllChangesApplied => 5
      case HealthCheckPassed => 6
      case EventsClean => 7
      case ObjectsConverged => 8
      case DependenciesReady => 9
      case VirtImpactPassed => 10;
    assert GATES[at] == g;
  }

  lemma {:induction false} AllTrueMeans(spec: WindowSpec, hub: bool, order: seq<string>, states: map<string, AppState>,
                     prev: seq<GateResult>, now: Time)
    ensures AllTrue(Results(spec, hub, order, states, prev, now))
       <==> forall g: Gate :: FinalVerdict(spec, hub, order, states, g).status == GateTrue
  {
    var rs := Results(spec, hub, order, states, prev, now);
    if AllTrue(rs) {
      forall g: Gate ensures FinalVerdict(spec, hub, order, states, g).status == GateTrue {
        GatesComplete(g);
        var i :| 0 <= i < |GATES| && GATES[i] == g;
        assert rs[i] == ResultFor(spec, hub, order, states, prev, now, g);
      }
    }
  }

  ghost predicate NineGatesHold(spec: WindowSpec, hub: bool, states: map<string, AppState>)
  {
    forall g: Gate :: !LastWriter(g) ==> GateHolds(g, spec, hub, states)
  }

  /** `Passed`, spelled out over the rows. */
  lemma {:induction false} PassedMeaning(spec: WindowSpec, hub: bool, order: seq<string>, states: map<string, AppState>,
                      silent: seq<SilentCluster>, prev: seq<GateResult>, now: Time)
    requires Enumerates(order, states.Keys)
    ensures Evaluate(spec, hub, order, states, silent, prev, now).passed
       <==> && silent == []
            && spec.impactedApps != []
            && NineGatesHold(spec, hub, states)
            && LastSayHolds(ClusterVersionStable, spec.startTime, order, states)
            && LastSayHolds(PlatformOperatorsDeployed, spec.startTime, order, states)
  {
    AllTrueMeans(spec, hub, order, states, prev, now);
    forall g: Gate ensures FinalVerdict(spec, hub, order, states, g).status == GateTrue
                      <==> if LastWriter(g) then LastSayHolds(g, spec.startTime, order, states)
                          else GateHolds(g, spec, hub, states) {
      if LastWriter(g) {
        LastWriterGates(g, spec, hub, order, states);
      } else {
        GateMeaning(g, spec, hub, order, states);
      }
    }
  }

  ghost predicate ReportersAgree(g: Gate, states: map<string, AppState>)
  {
    forall a, r, a', r' :: RowIn(states, a, r) && RowIn(states, a', r') && Reported(g, r) && Reported(g, r')
      ==> (RowSatisfies(g, ZERO_TIME, r) <==> RowSatisfies(g, ZERO_TIME, r'))
  }

  lemma {:induction false} FinalWordIsARow(g: Gate, order: seq<string>, states: map<string, AppState>)
    requires Enumerates(order, states.Keys)
    ensures FinalWord(g, order, states).Some? <==> SomeReport(g, states)
    ensures FinalWord(g, order, states).Some? ==>
              exists a :: RowIn(states, a, FinalWord(g, order, states).value)
                  && Reported(g, FinalWord(g, order, states).value)
  {
    var rows := Flatten(order, states);
    VisitsEveryRow(order, states);
    LastSayIsReporting(Reports(g), rows);
    if a, r :| RowIn(states, a, r) && Reported(g, r) {
      assert Placed(a, r) in rows && Reports(g)(r);
    }
    if FinalWord(g, order, states).Some? {
      var p :| p in rows && p.row == FinalWord(g, order, states).value && Reports(g)(p.row);
      assert RowIn(states, p.app, p.row);
    }
  }

  lemma {:induction false} AgreementFixesLastSay(g: Gate, start: Time, order: seq<string>, order': seq<string>,
                                                 states: map<string, AppState>)
    requires LastWriter(g)
    requires Enumerates(order, states.Keys) && Enumerates(order', states.Keys)
    requires ReportersAgree(g, states)
    ensures LastSayHolds(g, start, order, states) <==> LastSayHolds(g, start, order', states)
  {
    FinalWordIsARow(g, order, states);
    FinalWordIsARow(g, order', states);
  }

  /** When reporting rows agree on version and platform operators, Go's random map order cannot change `Passed`. */
  lemma {:induction false} PassedIgnoresOrder(spec: WindowSpec, hub: bool, order: seq<string>, order': seq<string>,
                                              states: map<string, AppState>,
                           silent: seq<SilentCluster>, prev: seq<GateResult>, now: Time)
    requires Enumerates(order, states.Keys) && Enumerates(order', states.Keys)
    requires ReportersAgree(ClusterVersionStable, states) && ReportersAgree(PlatformOperatorsDeployed, states)
    ensures Evaluate(spec, hub, order, states, silent, prev, now).passed
       <==> Evaluate(spec, hub, order', states, silent, prev, now).passed
  {
    PassedMeaning(spec, hub, order, states, silent, prev, now);
    PassedMeaning(spec, hub, order', states, silent, prev, now);
    AgreementFixesLastSay(ClusterVersionStable, spec.startTime, order, order', states);
    AgreementFixesLastSay(PlatformOperatorsDeployed, spec.startTime, order, order', states);
  }
}
