/**
 * What the gates and the issues say, as a set and without any order: a finding is noted exactly when some row of the
 * map, or some application without rows, calls for it. Hence every verdict is one the map warrants, and the issues are
 * exactly the objections there are.
 */
module GateWords {
  import opened Base
  import opened Model
  import opened Gates
  import opened GateTheorems
  import opened Text
  import S = GateStates

  // ----- what a row calls for -----

  /** An objection: the gate turns False, and an issue about this row names the same thing. */
  predicate Objects(f: Finding, app: string, row: Row, reason: string, words: seq<string>, numbers: seq<int>,
                    topic: string, names: seq<string>, counts: seq<int>)
  {
    && f.verdict == Verdict(GateFalse, reason, words, numbers)
    && f.issue == Some(Issue(app, row.clusterName, topic, names, counts))
  }

  ghost predicate OperatorCalls(f: Finding, app: string, row: Row)
  {
    exists o :: o in row.platform.operators && (o.degraded || !o.available)
                && Objects(f, app, row, "ClusterOperatorDegradedOrUnavailable",
                           [o.name, BoolWord(o.degraded), BoolWord(o.available)], [], "ClusterOperator", [o.name], [])
  }

  predicate SyncCalls(f: Finding, app: string, row: Row)
  {
    row.state != InSync
    && Objects(f, app, row, "ClusterNotInSync", [app, row.clusterName, StateWord(row.state)], [],
               "state", [StateWord(row.state)], [])
  }

  predicate HealthCalls(f: Finding, app: string, row: Row)
  {
    && row.health != Healthy
    && f.issue == Some(Issue(app, row.clusterName, "health", [HealthWord(row.health)], []))
    && f.verdict == if row.health.HealthUnset? || row.health.HealthUnknown?
                    then Verdict(GateUnknown, "WorkloadHealthUnknown", [app, row.clusterName], [])
                    else Verdict(GateFalse, "WorkloadUnhealthy", [app, row.clusterName, HealthWord(row.health)], [])
  }

  predicate PoolBroken(mcp: Pool) { mcp.phase == PoolDegraded || mcp.degradedNodeCount > 0 }

  predicate PoolMoving(mcp: Pool)
  {
    mcp.phase == PoolUpdating || mcp.updatingNodeCount > 0 || mcp.unavailableNodeCount > 0
  }

  predicate PoolShort(mcp: Pool) { 0 < mcp.machineCount && mcp.readyMachineCount < mcp.machineCount }

  predicate PoolMixed(mcp: Pool)
  {
    "" !in {mcp.desiredRenderedConfig, mcp.currentRenderedConfig}
    && mcp.desiredRenderedConfig != mcp.currentRenderedConfig
  }

  /** The worst that can be said of the pool, in this order. */
  predicate PoolCalls(f: Finding, app: string, row: Row)
  {
    var mcp := row.pool;
    && (mcp.name != "" || !mcp.phase.PoolUnset?)
    && (PoolBroken(mcp) ==> Objects(f, app, row, "MCPDegraded", [mcp.name], [mcp.degradedNodeCount],
                                    "MCP degraded", [mcp.name], []))
    && (!PoolBroken(mcp) && PoolMoving(mcp) ==>
          Objects(f, app, row, "MCPUpdatingOrUnavailable", [mcp.name],
                  [mcp.updatingNodeCount, mcp.unavailableNodeCount], "MCP updating/unavailable", [mcp.name], []))
    && (!PoolBroken(mcp) && !PoolMoving(mcp) && PoolShort(mcp) ==>
          Objects(f, app, row, "MCPNodesNotReady", [mcp.name], [mcp.readyMachineCount, mcp.machineCount],
                  "MCP not all nodes ready", [mcp.name], []))
    && (!PoolBroken(mcp) && !PoolMoving(mcp) && !PoolShort(mcp) ==>
          PoolMixed(mcp)
          && Objects(f, app, row, "MCPConfigMismatch",
                     [mcp.name, mcp.currentRenderedConfig, mcp.desiredRenderedConfig], [],
                     "MCP config mismatch", [mcp.name], []))
  }

  ghost predicate EventCalls(f: Finding, start: Time, app: string, row: Row)
  {
    exists e :: e in row.recentEvents && start <= e.lastObservedAt
                && Objects(f, app, row, "WarningEventsObserved", [e.reason, e.involvedObject, e.message], [],
                           "Warning event", [e.reason, e.involvedObject], [])
  }

  /** The change failed: it says so in one of three words, or its first four letters do. */
  predicate SaysFailed(oc: ObjectChange)
  {
    var ct := ToLower(oc.changeType);
    ct in {"syncfailed", "error", "syncerror"} || "fail" <= ct
  }

  ghost predicate ObjectCalls(f: Finding, app: string, row: Row)
  {
    exists oc :: oc in row.objectChanges && SaysFailed(oc)
                 && Objects(f, app, row, "ObjectSyncFailed", [oc.kind, oc.name, oc.changeType], [],
                            "object failed sync", [oc.kind, oc.name], [])
  }

  ghost predicate DependencyCalls(f: Finding, app: string, row: Row)
  {
    exists d :: d in row.dependencies && !d.ready
                && Objects(f, app, row, "DependencyNotReady", [d.kind, d.name, d.note], [],
                           "dependency not ready", [d.kind, d.name], [])
  }

  predicate VirtCalls(f: Finding, app: string, row: Row)
  {
    var virt := row.virt;
    || (virt.hyperConverged.HcoDegraded?
        && Objects(f, app, row, "HyperConvergedDegraded", [], [], "HyperConverged degraded", [], []))
    || (!virt.virtHandlerReady && Objects(f, app, row, "VirtHandlerNotReady", [], [], "virt-handler unready", [], []))
    || (virt.stalledMigrations > 0
        && Objects(f, app, row, "StalledMigrations", [], [virt.stalledMigrations],
                   "stalled migrations", [], [virt.stalledMigrations]))
    || (virt.unmigratableVMIs > 0
        && Objects(f, app, row, "UnmigratableVMIs", [], [virt.unmigratableVMIs],
                   "unmigratable VMIs", [], [virt.unmigratableVMIs]))
  }

  predicate VersionCalls(f: Finding, app: string, row: Row)
  {
    var cv := row.platform.clusterVersion;
    && (cv.version != "" || cv.desiredVersion != "")
    && if RowSatisfies(ClusterVersionStable, 0, row) then
         f.issue.None? && f.verdict == Verdict(GateTrue, "ClusterVersionStable", [cv.version], [])
       else if cv.progressing then
         Objects(f, app, row, "ClusterVersionProgressing", [cv.version, cv.desiredVersion], [],
                 "ClusterVersion upgrading", [], [])
       else Objects(f, app, row, "ClusterVersionNotAvailable", [], [], "ClusterVersion not available", [], [])
  }

  /** The operators that are not ready, each with its phase. */
  function Undeployed(po: Platform): seq<string>
  {
    (if po.kubeVirt.ready then [] else ["KubeVirt", po.kubeVirt.phase])
    + (if po.cdi.ready then [] else ["CDI", po.cdi.phase])
    + (if po.ssp.ready then [] else ["SSP", po.ssp.phase])
  }

  predicate PlatformCalls(f: Finding, app: string, row: Row)
  {
    && row.platform.kubeVirt.phase !in {"", "Unknown"}
    && if RowSatisfies(PlatformOperatorsDeployed, 0, row) then
         f.issue.None? && f.verdict == Verdict(GateTrue, "AllPlatformOperatorsDeployed", [], [])
       else Objects(f, app, row, "PlatformOperatorNotDeployed", Undeployed(row.platform), [],
                    "platform operators not deployed", Undeployed(row.platform), [])
  }

  predicate MaintenanceCalls(f: Finding, app: string, row: Row)
  {
    var nodes := row.platform.activeMaintenanceNodes;
    0 < nodes && Objects(f, app, row, "ActiveNodeMaintenance", [], [nodes], "nodes under maintenance", [], [nodes])
  }

  /** The row calls for this finding. */
  ghost predicate Calls(f: Finding, start: Time, app: string, row: Row)
  {
    match f.gate
    case ClusterOperatorsHealthy => OperatorCalls(f, app, row)
    case AllChangesApplied => SyncCalls(f, app, row)
    case HealthCheckPassed => HealthCalls(f, app, row)
    case MCPUpdatedOnTime => PoolCalls(f, app, row)
    case EventsClean => EventCalls(f, start, app, row)
    case ObjectsConverged => ObjectCalls(f, app, row)
    case DependenciesReady => DependencyCalls(f, app, row)
    case VirtImpactPassed => VirtCalls(f, app, row)
    case ClusterVersionStable => VersionCalls(f, app, row)
    case PlatformOperatorsDeployed => PlatformCalls(f, app, row)
    case NoActiveNodeMaintenance => MaintenanceCalls(f, app, row)
  }

  lemma {:induction false} OperatorsNoted(f: Finding, app: string, row: Row, ops: seq<Operator>)
    requires f.gate == ClusterOperatorsHealthy
    ensures f in OperatorFindings(app, row.clusterName, ops)
       <==> exists o :: o in ops && (o.degraded || !o.available)
                && Objects(f, app, row, "ClusterOperatorDegradedOrUnavailable",
                           [o.name, BoolWord(o.degraded), BoolWord(o.available)], [], "ClusterOperator", [o.name], [])
  {
    if ops != [] {
      var n := |ops| - 1;
      assert ops == ops[..n] + [ops[n]];
      OperatorsNoted(f, app, row, ops[..n]);
    }
  }

  lemma {:induction false} EventsNoted(f: Finding, start: Time, app: string, row: Row, evs: seq<EventSummary>)
    requires f.gate == EventsClean
    ensures f in EventFindings(app, row.clusterName, start, evs)
       <==> exists e :: e in evs && start <= e.lastObservedAt
                && Objects(f, app, row, "WarningEventsObserved", [e.reason, e.involvedObject, e.message], [],
                           "Warning event", [e.reason, e.involvedObject], [])
  {
    if evs != [] {
      var n := |evs| - 1;
      assert evs == evs[..n] + [evs[n]];
      EventsNoted(f, start, app, row, evs[..n]);
    }
  }

  lemma {:induction false} ObjectsNoted(f: Finding, app: string, row: Row, ocs: seq<ObjectChange>)
    requires f.gate == ObjectsConverged
    ensures f in ObjectFindings(app, row.clusterName, ocs)
       <==> exists oc :: oc in ocs && SaysFailed(oc)
                 && Objects(f, app, row, "ObjectSyncFailed", [oc.kind, oc.name, oc.changeType], [],
                            "object failed sync", [oc.kind, oc.name], [])
  {
    if ocs != [] {
      var n := |ocs| - 1;
      assert ocs == ocs[..n] + [ocs[n]];
      ObjectsNoted(f, app, row, ocs[..n]);
    }
  }

  lemma {:induction false} DependenciesNoted(f: Finding, app: string, row: Row, deps: seq<Dependency>)
    requires f.gate == DependenciesReady
    ensures f in DependencyFindings(app, row.clusterName, deps)
       <==> exists d :: d in deps && !d.ready
                && Objects(f, app, row, "DependencyNotReady", [d.kind, d.name, d.note], [],
                           "dependency not ready", [d.kind, d.name], [])
  {
    if deps != [] {
      var n := |deps| - 1;
      assert deps == deps[..n] + [deps[n]];
      DependenciesNoted(f, app, row, deps[..n]);
    }
  }

  lemma {:induction false} PoolNoted(f: Finding, app: string, row: Row)
    requires f.gate == MCPUpdatedOnTime
    ensures f in PoolFindings(app, row.clusterName, row.pool) <==> PoolCalls(f, app, row)
  {
  }

  lemma {:induction false} VirtNoted(f: Finding, app: string, row: Row)
    requires f.gate == VirtImpactPassed
    ensures f in VirtFindings(app, row.clusterName, row.virt) <==> VirtCalls(f, app, row)
  {
  }

  lemma {:induction false} VersionNoted(f: Finding, app: string, row: Row)
    requires f.gate == ClusterVersionStable
    ensures f in VersionFindings(app, row.clusterName, row.platform.clusterVersion) <==> VersionCalls(f, app, row)
  {
  }

  lemma {:induction false} PlatformNoted(f: Finding, app: string, row: Row)
    requires f.gate == PlatformOperatorsDeployed
    ensures f in PlatformFindings(app, row.clusterName, row.platform) <==> PlatformCalls(f, app, row)
  {
  }

  /** The part of a row's findings that is about one gate. */
  lemma {:induction false} PartNoted(g: Gate, f: Finding, start: Time, app: string, row: Row)
    ensures f in PartFor(g, start, app, row) <==> f.gate == g && Calls(f, start, app, row)
  {
    if f.gate == g {
      match g {
        case ClusterOperatorsHealthy => OperatorsNoted(f, app, row, row.platform.operators);
        case MCPUpdatedOnTime => PoolNoted(f, app, row);
        case EventsClean => EventsNoted(f, start, app, row, row.recentEvents);
        case ObjectsConverged => ObjectsNoted(f, app, row, row.objectChanges);
        case DependenciesReady => DependenciesNoted(f, app, row, row.dependencies);
        case VirtImpactPassed => VirtNoted(f, app, row);
        case ClusterVersionStable => VersionNoted(f, app, row);
        case PlatformOperatorsDeployed => PlatformNoted(f, app, row);
        case _ =>
      }
    }
  }

  lemma {:induction false} ConcatContains(gs: seq<Gate>, part: Gate -> seq<Finding>, f: Finding)
    ensures f in Concat(gs, part) <==> exists g :: g in gs && f in part(g)
  {
    if gs != [] {
      var n := |gs| - 1;
      assert gs == gs[..n] + [gs[n]];
      ConcatContains(gs[..n], part, f);
    }
  }

  lemma {:induction false} RowNoted(f: Finding, start: Time, app: string, row: Row)
    ensures f in RowFindings(start, app, row) <==> Calls(f, start, app, row)
  {
    var part := RowPart(start, app, row);
    ConcatContains(Visits(row), part, f);
    forall g ensures f in part(g) <==> f.gate == g && Calls(f, start, app, row) {
      PartNoted(g, f, start, app, row);
    }
    VisitsAreComplete(f.gate, row);
  }

  // ----- what the map calls for -----

  /** An application without rows calls for this one, except on the hub. */
  ghost predicate MissingCalls(f: Finding, hub: bool, states: map<string, AppState>)
  {
    !hub && (exists a :: a in states && states[a].rows == []
                         && f == Finding(AllChangesApplied,
                                         Verdict(GateUnknown, "MissingAppPropagationStatus", [a], []),
                                         Some(Issue(a, "", "missing cluster propagation status", [], []))))
  }

  /** Some row calls for this one. */
  ghost predicate SomeRowCalls(f: Finding, start: Time, states: map<string, AppState>)
  {
    exists a, r :: RowIn(states, a, r) && Calls(f, start, a, r)
  }

  lemma {:induction false} RowsContain(visit: Visitor, app: string, rows: seq<Row>, f: Finding)
    ensures f in RowsFindings(visit, app, rows) <==> exists r :: r in rows && f in visit(app, r)
  {
    if rows != [] {
      var n := |rows| - 1;
      assert rows == rows[..n] + [rows[n]];
      RowsContain(visit, app, rows[..n], f);
    }
  }

  lemma {:induction false} ScanContains(visit: Visitor, hub: bool, order: seq<string>, states: map<string, AppState>,
                                        f: Finding)
    ensures f in Scan(visit, hub, order, states)
       <==> exists a :: a in order && (f in MissingFindings(hub, a, RowsOf(states, a))
                                       || f in RowsFindings(visit, a, RowsOf(states, a)))
  {
    if order != [] {
      var n := |order| - 1;
      assert order == order[..n] + [order[n]];
      ScanContains(visit, hub, order[..n], states, f);
    }
  }

  lemma {:induction false} RowsOfAppNoted(f: Finding, start: Time, states: map<string, AppState>, app: string)
    requires app in states
    ensures f in RowsFindings(VisitFrom(start), app, RowsOf(states, app))
       <==> exists r :: RowIn(states, app, r) && Calls(f, start, app, r)
  {
    RowsContain(VisitFrom(start), app, RowsOf(states, app), f);
    forall r ensures f in VisitFrom(start)(app, r) <==> Calls(f, start, app, r) {
      RowNoted(f, start, app, r);
    }
  }

  /** In any order, the loops note exactly the findings that rows and missing rows call for. */
  lemma {:induction false} FindingsExactly(f: Finding, start: Time, hub: bool, order: seq<string>,
                                           states: map<string, AppState>)
    requires Enumerates(order, states.Keys)
    ensures f in Scan(VisitFrom(start), hub, order, states)
       <==> SomeRowCalls(f, start, states) || MissingCalls(f, hub, states)
  {
    ScanContains(VisitFrom(start), hub, order, states, f);
    forall a | a in order
      ensures f in RowsFindings(VisitFrom(start), a, RowsOf(states, a))
         <==> exists r :: RowIn(states, a, r) && Calls(f, start, a, r)
    {
      RowsOfAppNoted(f, start, states, a);
    }
    forall a | a in states ensures a in order {
    }
  }

  /** Rows or missing rows call for this finding. */
  ghost predicate Called(f: Finding, spec: WindowSpec, hub: bool, states: map<string, AppState>)
  {
    SomeRowCalls(f, spec.startTime, states) || MissingCalls(f, hub, states)
  }

  // ----- issues -----

  lemma {:induction false} IssuesContain(fs: seq<Finding>, x: Issue)
    ensures x in IssuesOf(fs) <==> exists f :: f in fs && f.issue == Some(x)
  {
    if fs != [] {
      var n := |fs| - 1;
      assert fs == fs[..n] + [fs[n]];
      IssuesContain(fs[..n], x);
    }
  }

  /** The issue a silent cluster raises. */
  predicate RaisedBySilence(x: Issue, s: SilentCluster)
  {
    && x.app == s.app && x.cluster == s.cluster && x.words == [] && x.numbers == []
    && x.topic == match s.silence case WentSilentDuringChg => "went silent" case _ => "silent before start"
  }

  lemma {:induction false} SilenceContains(silent: seq<SilentCluster>, x: Issue)
    ensures x in SilenceIssues(silent) <==> exists s :: s in silent && RaisedBySilence(x, s)
  {
    if silent != [] {
      var n := |silent| - 1;
      assert silent == silent[..n] + [silent[n]];
      SilenceContains(silent[..n], x);
      var last := SilenceIssues(silent)[n];
      assert SilenceIssues(silent) == SilenceIssues(silent[..n]) + [last];
      assert RaisedBySilence(x, silent[n]) <==> x == last;
    }
  }

  /** What is wrong as a whole: no scope, or no rows. */
  ghost predicate RaisedByScope(x: Issue, spec: WindowSpec, states: map<string, AppState>)
  {
    || (spec.impactedApps == [] && x == Issue("", "", "spec.impactedApps is empty", [], []))
    || (!SomeRow(states) && x == Issue("", "", "no cluster reports available", [], []))
  }

  lemma {:induction false} ScanIssues(spec: WindowSpec, hub: bool, order: seq<string>, states: map<string, AppState>,
                                      x: Issue)
    requires Enumerates(order, states.Keys)
    ensures x in IssuesOf(Scan(VisitFrom(spec.startTime), hub, order, states))
       <==> exists f :: Called(f, spec, hub, states) && f.issue == Some(x)
  {
    IssuesContain(Scan(VisitFrom(spec.startTime), hub, order, states), x);
    forall f ensures f in Scan(VisitFrom(spec.startTime), hub, order, states) <==> Called(f, spec, hub, states) {
      FindingsExactly(f, spec.startTime, hub, order, states);
    }
  }

  /** In any order, the issues listed are exactly those that rows, missing rows, silence or the scope give rise to. */
  lemma {:induction false} IssuesExactly(spec: WindowSpec, hub: bool, order: seq<string>,
                                         states: map<string, AppState>, silent: seq<SilentCluster>,
                                         prev: seq<GateResult>, now: Time, x: Issue)
    requires Enumerates(order, states.Keys)
    ensures x in Evaluate(spec, hub, order, states, silent, prev, now).issues
       <==> || (exists f :: Called(f, spec, hub, states) && f.issue == Some(x))
            || (exists s :: s in silent && RaisedBySilence(x, s))
            || RaisedByScope(x, spec, states)
  {
    ScanIssues(spec, hub, order, states, x);
    SilenceContains(silent, x);
    RowsExist(order, states, AllChangesApplied);
  }

  // ----- verdicts -----

  /** What stands at the end is what some finding said, or the opening verdict if none is about the gate. */
  lemma {:induction false} SettleQuotes(g: Gate, first: Verdict, fs: seq<Finding>)
    requires first.status != GateFalse
    ensures Concerns(fs, g) ==> exists f :: f in fs && f.gate == g && f.verdict == Settle(g, first, fs)
    ensures !Concerns(fs, g) ==> Settle(g, first, fs) == first
  {
    if fs != [] {
      var n := |fs| - 1;
      assert fs == fs[..n] + [fs[n]];
      SettleQuotes(g, first, fs[..n]);
    }
  }

  /** Some row, or a missing one, says just this about the gate. */
  ghost predicate Quoted(v: Verdict, g: Gate, spec: WindowSpec, hub: bool, states: map<string, AppState>)
  {
    exists f :: Called(f, spec, hub, states) && f.gate == g && f.verdict == v
  }

  ghost predicate NothingCalled(g: Gate, spec: WindowSpec, hub: bool, states: map<string, AppState>)
  {
    forall f :: Called(f, spec, hub, states) ==> f.gate != g
  }

  lemma {:induction false} SettledIsQuoted(g: Gate, spec: WindowSpec, hub: bool, order: seq<string>,
                                           states: map<string, AppState>)
    requires Enumerates(order, states.Keys)
    ensures var v := Settle(g, InitialVerdict(spec, g), Scan(VisitFrom(spec.startTime), hub, order, states));
            if NothingCalled(g, spec, hub, states) then v == InitialVerdict(spec, g)
            else Quoted(v, g, spec, hub, states)
  {
    var fs := Scan(VisitFrom(spec.startTime), hub, order, states);
    SettleQuotes(g, InitialVerdict(spec, g), fs);
    forall f ensures f in fs <==> Called(f, spec, hub, states) {
      FindingsExactly(f, spec.startTime, hub, order, states);
    }
  }

  /** The verdict of a gate whose telemetry no row carries. */
  predicate SaysNotReported(v: Verdict, g: Gate)
  {
    && v.status == GateUnknown && v.words == [] && v.numbers == []
    && v.reason == match g
                   case ClusterOperatorsHealthy => "ClusterOperatorsNotReported"
                   case MCPUpdatedOnTime => "MCPStatusNotReported"
                   case _ => "VirtStatusNotReported"
  }

  /** The gates that say nothing of rows that are not there. */
  predicate NeedsNoRows(g: Gate) { LastWriter(g) || g == NoActiveNodeMaintenance }

  /** What entitles a gate to its final verdict. */
  ghost predicate Warranted(v: Verdict, g: Gate, spec: WindowSpec, hub: bool, states: map<string, AppState>)
  {
    if S.NeedsTelemetry(g) && !SomeReport(g, states) then SaysNotReported(v, g)
    else if g == AllChangesApplied && !SomeRow(states) then
      v == Verdict(GateUnknown, "NoClusterStatesObserved", [], [])
    else if !NothingCalled(g, spec, hub, states) then Quoted(v, g, spec, hub, states)
    else if SomeRow(states) || NeedsNoRows(g) then v == InitialVerdict(spec, g)
    else v == InitialVerdict(spec, g).(status := GateUnknown)
  }

  lemma {:induction false} NoRowNoCall(g: Gate, spec: WindowSpec, hub: bool, states: map<string, AppState>)
    requires !SomeRow(states) && g != AllChangesApplied
    ensures NothingCalled(g, spec, hub, states)
  {
  }

  lemma {:induction false} FinishSays(g: Gate, v: Verdict, reported: bool, total: nat)
    ensures var w := Finish(g, v, reported, total);
            if S.NeedsTelemetry(g) && !reported then SaysNotReported(w, g)
            else if g == AllChangesApplied && total == 0 then
              w == Verdict(GateUnknown, "NoClusterStatesObserved", [], [])
            else w == if total > 0 || NeedsNoRows(g) then v else v.(status := GateUnknown)
  {
  }

  /**
   * Every final verdict, in whatever order the map was ranged over, is warranted by the map: its reason and the values
   * it shows are those of a row that is really there and really like that, or it says that nothing is known.
   */
  lemma {:induction false} VerdictIsWarranted(g: Gate, spec: WindowSpec, hub: bool, order: seq<string>,
                                              states: map<string, AppState>)
    requires Enumerates(order, states.Keys)
    ensures Warranted(FinalVerdict(spec, hub, order, states, g), g, spec, hub, states)
  {
    SettledIsQuoted(g, spec, hub, order, states);
    RowsExist(order, states, g);
    if !SomeRow(states) && g != AllChangesApplied {
      NoRowNoCall(g, spec, hub, states);
    }
    FinishSays(g, Settle(g, InitialVerdict(spec, g), Scan(VisitFrom(spec.startTime), hub, order, states)),
               AnyReported(g, Flatten(order, states)), |Flatten(order, states)|);
  }
}
