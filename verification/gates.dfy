/**
 * What the eleven-gate evaluator of a change window computes, as a value: rows in the order they are visited, the
 * findings noted on the way, and the verdicts the findings settle into. The evaluator's loops, and what the gates
 * mean without any order, are in modules of their own.
 */
module Gates {
  import opened Base
  import opened Model
  import opened Text

  // ----- rows in the order they are visited -----

  datatype Placed = Placed(app: string, row: Row)

  function RowsOf(states: map<string, AppState>, app: string): seq<Row>
  {
    if app in states then states[app].rows else []
  }

  function Place(app: string, rows: seq<Row>): (r: seq<Placed>)
    ensures |r| == |rows|
    ensures forall i :: 0 <= i < |rows| ==> r[i] == Placed(app, rows[i])
  {
    seq(|rows|, i requires 0 <= i < |rows| => Placed(app, rows[i]))
  }

  function Flatten(order: seq<string>, states: map<string, AppState>): seq<Placed>
  {
    if order == [] then []
    else
      var n := |order| - 1;
      Flatten(order[..n], states) + Place(order[n], RowsOf(states, order[n]))
  }

  lemma {:induction false} FlattenContains(order: seq<string>, states: map<string, AppState>, p: Placed)
    ensures p in Flatten(order, states) <==> p.app in order && p.row in RowsOf(states, p.app)
  {
    if order != [] {
      var n := |order| - 1;
      FlattenContains(order[..n], states, p);
      var placed := Place(order[n], RowsOf(states, order[n]));
      assert order == order[..n] + [order[n]];
      if p.app == order[n] && p.row in RowsOf(states, p.app) {
        var i :| 0 <= i < |RowsOf(states, p.app)| && RowsOf(states, p.app)[i] == p.row;
        assert placed[i] == p;
      }
    }
  }

  lemma {:induction false} FlattenStep(order: seq<string>, i: nat, states: map<string, AppState>)
    requires i < |order|
    ensures Flatten(order[..i + 1], states) == Flatten(order[..i], states) + Place(order[i], RowsOf(states, order[i]))
  {
    assert order[..i + 1][..i] == order[..i];
  }

  lemma {:induction false} FlattenConcat(a: seq<string>, b: seq<string>, states: map<string, AppState>)
    ensures Flatten(a + b, states) == Flatten(a, states) + Flatten(b, states)
  {
    if b == [] {
      assert a + b == a;
    } else {
      var n := |b| - 1;
      assert (a + b)[..|a + b| - 1] == a + b[..n] && (a + b)[|a + b| - 1] == b[n];
      FlattenConcat(a, b[..n], states);
      var placed := Place(b[n], RowsOf(states, b[n]));
      assert Flatten(a + b, states) == Flatten(a + b[..n], states) + placed;
    }
  }

  lemma {:induction false} FlattenHead(order: seq<string>, states: map<string, AppState>)
    requires order != []
    ensures Flatten(order, states) == Place(order[0], RowsOf(states, order[0])) + Flatten(order[1..], states)
  {
    var head := [order[0]];
    assert order == head + order[1..];
    FlattenConcat(head, order[1..], states);
    assert head[..0] == [];
    assert Flatten(head, states) == Place(order[0], RowsOf(states, order[0]));
  }

  ghost predicate RowIn(states: map<string, AppState>, app: string, row: Row)
  {
    app in states && row in states[app].rows
  }

  /** Ranging over the whole map visits every row there is, and nothing else. */
  lemma {:induction false} VisitsEveryRow(order: seq<string>, states: map<string, AppState>)
    requires Enumerates(order, states.Keys)
    ensures forall p :: p in Flatten(order, states) <==> RowIn(states, p.app, p.row)
  {
    forall p ensures p in Flatten(order, states) <==> RowIn(states, p.app, p.row) {
      FlattenContains(order, states, p);
    }
  }

  // ----- findings: one gate overwrite each, in source order -----

  datatype Finding = Finding(gate: Gate, verdict: Verdict, issue: Option<Issue>)

  function Fail(gate: Gate, reason: string, words: seq<string>, numbers: seq<int>, issue: Issue): Finding
  {
    Finding(gate, Verdict(GateFalse, reason, words, numbers), Some(issue))
  }

  predicate SyncFailed(changeType: string)
  {
    var ct := ToLower(changeType);
    ct == "failed" || ct == "syncfailed" || ct == "error" || ct == "syncerror" || "fail" <= ct
  }

  function BoolWord(b: bool): string { if b then "true" else "false" }

  function StateWord(s: RowState): string
  {
    match s
    case InSync => "InSync"
    case Propagating => "Propagating"
    case Lagging => "Lagging"
    case Diverged => "Diverged"
    case Stale => "Stale"
    case Missing => "Missing"
    case OutOfSyncRow => "OutOfSync"
    case OtherRow(t) => t
  }

  function HealthWord(h: Health): string
  {
    match h
    case HealthUnset => ""
    case Healthy => "Healthy"
    case Progressing => "Progressing"
    case Degraded => "Degraded"
    case HealthUnknown => "Unknown"
    case OtherHealth(t) => t
  }

  function OperatorFindings(app: string, cluster: string, ops: seq<Operator>): (fs: seq<Finding>)
    ensures forall f :: f in fs ==> f.gate == ClusterOperatorsHealthy && f.verdict.status == GateFalse
    ensures fs == [] <==> forall o :: o in ops ==> o.available && !o.degraded
  {
    if ops == [] then []
    else
      var n := |ops| - 1;
      var rest := OperatorFindings(app, cluster, ops[..n]);
      assert ops == ops[..n] + [ops[n]];
      if ops[n].degraded || !ops[n].available then
        rest + [Fail(ClusterOperatorsHealthy, "ClusterOperatorDegradedOrUnavailable",
                     [ops[n].name, BoolWord(ops[n].degraded), BoolWord(ops[n].available)], [],
                     Issue(app, cluster, "ClusterOperator", [ops[n].name], []))]
      else rest
  }

  function SyncFindings(app: string, row: Row): (fs: seq<Finding>)
    ensures forall f :: f in fs ==> f.gate == AllChangesApplied && f.verdict.status == GateFalse
    ensures fs == [] <==> row.state == InSync
  {
    if row.state == InSync then []
    else [Fail(AllChangesApplied, "ClusterNotInSync", [app, row.clusterName, StateWord(row.state)], [],
               Issue(app, row.clusterName, "state", [StateWord(row.state)], []))]
  }

  function HealthFindings(app: string, row: Row): (fs: seq<Finding>)
    ensures forall f :: f in fs ==> f.gate == HealthCheckPassed && f.verdict.status != GateTrue
    ensures fs == [] <==> row.health == Healthy
  {
    var issue := Some(Issue(app, row.clusterName, "health", [HealthWord(row.health)], []));
    if row.health == Healthy then []
    else if row.health == HealthUnset || row.health == HealthUnknown then
      [Finding(HealthCheckPassed, Verdict(GateUnknown, "WorkloadHealthUnknown", [app, row.clusterName], []), issue)]
    else
      [Finding(HealthCheckPassed,
               Verdict(GateFalse, "WorkloadUnhealthy", [app, row.clusterName, HealthWord(row.health)], []), issue)]
  }

  function PoolFindings(app: string, cluster: string, mcp: Pool): (fs: seq<Finding>)
    ensures forall f :: f in fs ==> f.gate == MCPUpdatedOnTime && f.verdict.status == GateFalse
  {
    if mcp.name == "" && mcp.phase == PoolUnset then []
    else if mcp.phase == PoolDegraded || mcp.degradedNodeCount > 0 then
      [Fail(MCPUpdatedOnTime, "MCPDegraded", [mcp.name], [mcp.degradedNodeCount],
            Issue(app, cluster, "MCP degraded", [mcp.name], []))]
    else if mcp.phase == PoolUpdating || mcp.updatingNodeCount > 0 || mcp.unavailableNodeCount > 0 then
      [Fail(MCPUpdatedOnTime, "MCPUpdatingOrUnavailable", [mcp.name], [mcp.updatingNodeCount, mcp.unavailableNodeCount],
            Issue(app, cluster, "MCP updating/unavailable", [mcp.name], []))]
    else if mcp.machineCount > 0 && mcp.readyMachineCount < mcp.machineCount then
      [Fail(MCPUpdatedOnTime, "MCPNodesNotReady", [mcp.name], [mcp.readyMachineCount, mcp.machineCount],
            Issue(app, cluster, "MCP not all nodes ready", [mcp.name], []))]
    else if mcp.desiredRenderedConfig != "" && mcp.currentRenderedConfig != ""
            && mcp.desiredRenderedConfig != mcp.currentRenderedConfig then
      [Fail(MCPUpdatedOnTime, "MCPConfigMismatch", [mcp.name, mcp.currentRenderedConfig, mcp.desiredRenderedConfig], [],
            Issue(app, cluster, "MCP config mismatch", [mcp.name], []))]
    else []
  }

  function EventFindings(app: string, cluster: string, start: Time, evs: seq<EventSummary>): (fs: seq<Finding>)
    ensures forall f :: f in fs ==> f.gate == EventsClean && f.verdict.status == GateFalse
    ensures fs == [] <==> forall e :: e in evs ==> e.lastObservedAt < start
  {
    if evs == [] then []
    else
      var n := |evs| - 1;
      var rest := EventFindings(app, cluster, start, evs[..n]);
      assert evs == evs[..n] + [evs[n]];
      if evs[n].lastObservedAt >= start then
        rest + [Fail(EventsClean, "WarningEventsObserved", [evs[n].reason, evs[n].involvedObject, evs[n].message], [],
                     Issue(app, cluster, "Warning event", [evs[n].reason, evs[n].involvedObject], []))]
      else rest
  }

  function ObjectFindings(app: string, cluster: string, ocs: seq<ObjectChange>): (fs: seq<Finding>)
    ensures forall f :: f in fs ==> f.gate == ObjectsConverged && f.verdict.status == GateFalse
    ensures fs == [] <==> forall oc :: oc in ocs ==> !SyncFailed(oc.changeType)
  {
    if ocs == [] then []
    else
      var n := |ocs| - 1;
      var rest := ObjectFindings(app, cluster, ocs[..n]);
      assert ocs == ocs[..n] + [ocs[n]];
      if SyncFailed(ocs[n].changeType) then
        rest + [Fail(ObjectsConverged, "ObjectSyncFailed", [ocs[n].kind, ocs[n].name, ocs[n].changeType], [],
                     Issue(app, cluster, "object failed sync", [ocs[n].kind, ocs[n].name], []))]
      else rest
  }

  function DependencyFindings(app: string, cluster: string, deps: seq<Dependency>): (fs: seq<Finding>)
    ensures forall f :: f in fs ==> f.gate == DependenciesReady && f.verdict.status == GateFalse
    ensures fs == [] <==> forall d :: d in deps ==> d.ready
  {
    if deps == [] then []
    else
      var n := |deps| - 1;
      var rest := DependencyFindings(app, cluster, deps[..n]);
      assert deps == deps[..n] + [deps[n]];
      if !deps[n].ready then
        rest + [Fail(DependenciesReady, "DependencyNotReady", [deps[n].kind, deps[n].name, deps[n].note], [],
                     Issue(app, cluster, "dependency not ready", [deps[n].kind, deps[n].name], []))]
      else rest
  }

  function VirtFindings(app: string, cluster: string, virt: Virt): (fs: seq<Finding>)
    ensures forall f :: f in fs ==> f.gate == VirtImpactPassed && f.verdict.status == GateFalse
  {
    (if virt.hyperConverged == HcoDegraded then
       [Fail(VirtImpactPassed, "HyperConvergedDegraded", [], [],
           Issue(app, cluster, "HyperConverged degraded", [], []))]
     else []) +
    (if !virt.virtHandlerReady then
       [Fail(VirtImpactPassed, "VirtHandlerNotReady", [], [], Issue(app, cluster, "virt-handler unready", [], []))]
     else []) +
    (if virt.stalledMigrations > 0 then
       [Fail(VirtImpactPassed, "StalledMigrations", [], [virt.stalledMigrations],
             Issue(app, cluster, "stalled migrations", [], [virt.stalledMigrations]))]
     else []) +
    (if virt.unmigratableVMIs > 0 then
       [Fail(VirtImpactPassed, "UnmigratableVMIs", [], [virt.unmigratableVMIs],
             Issue(app, cluster, "unmigratable VMIs", [], [virt.unmigratableVMIs]))]
     else [])
  }

  function VersionFindings(app: string, cluster: string, cv: ClusterVersion): (fs: seq<Finding>)
    ensures forall f :: f in fs ==> f.gate == ClusterVersionStable
  {
    if cv.version == "" && cv.desiredVersion == "" then []
    else if cv.progressing then
      [Fail(ClusterVersionStable, "ClusterVersionProgressing", [cv.version, cv.desiredVersion], [],
            Issue(app, cluster, "ClusterVersion upgrading", [], []))]
    else if cv.available then
      [Finding(ClusterVersionStable, Verdict(GateTrue, "ClusterVersionStable", [cv.version], []), None)]
    else
      [Fail(ClusterVersionStable, "ClusterVersionNotAvailable", [], [],
            Issue(app, cluster, "ClusterVersion not available", [], []))]
  }

  function PlatformFindings(app: string, cluster: string, po: Platform): (fs: seq<Finding>)
    ensures forall f :: f in fs ==> f.gate == PlatformOperatorsDeployed
  {
    var notReady :=
      (if !po.kubeVirt.ready then ["KubeVirt", po.kubeVirt.phase] else []) +
      (if !po.cdi.ready then ["CDI", po.cdi.phase] else []) +
      (if !po.ssp.ready then ["SSP", po.ssp.phase] else []);
    if po.kubeVirt.phase == "" || po.kubeVirt.phase == "Unknown" then []
    else if po.kubeVirt.ready && po.cdi.ready && po.ssp.ready then
      [Finding(PlatformOperatorsDeployed, Verdict(GateTrue, "AllPlatformOperatorsDeployed", [], []), None)]
    else
      [Fail(PlatformOperatorsDeployed, "PlatformOperatorNotDeployed", notReady, [],
            Issue(app, cluster, "platform operators not deployed", notReady, []))]
  }

  function MaintenanceFindings(app: string, cluster: string, nodes: Int32): (fs: seq<Finding>)
    ensures forall f :: f in fs ==> f.gate == NoActiveNodeMaintenance && f.verdict.status == GateFalse
  {
    if nodes <= 0 then []
    else [Fail(NoActiveNodeMaintenance, "ActiveNodeMaintenance", [], [nodes],
               Issue(app, cluster, "nodes under maintenance", [], [nodes]))]
  }

  /** The order in which the loop body visits the gates of a row: the same for every row. */
  function Visits(row: Row): seq<Gate>
  {
    [ClusterOperatorsHealthy, AllChangesApplied, HealthCheckPassed, MCPUpdatedOnTime, EventsClean, ObjectsConverged,
     DependenciesReady, VirtImpactPassed, ClusterVersionStable, PlatformOperatorsDeployed, NoActiveNodeMaintenance]
  }

  /** What one row says about one gate. */
  function PartFor(g: Gate, start: Time, app: string, row: Row): (fs: seq<Finding>)
    ensures forall f :: f in fs ==> f.gate == g
  {
    match g
    case ClusterOperatorsHealthy => OperatorFindings(app, row.clusterName, row.platform.operators)
    case AllChangesApplied => SyncFindings(app, row)
    case HealthCheckPassed => HealthFindings(app, row)
    case MCPUpdatedOnTime => PoolFindings(app, row.clusterName, row.pool)
    case EventsClean => EventFindings(app, row.clusterName, start, row.recentEvents)
    case ObjectsConverged => ObjectFindings(app, row.clusterName, row.objectChanges)
    case DependenciesReady => DependencyFindings(app, row.clusterName, row.dependencies)
    case VirtImpactPassed => VirtFindings(app, row.clusterName, row.virt)
    case ClusterVersionStable => VersionFindings(app, row.clusterName, row.platform.clusterVersion)
    case PlatformOperatorsDeployed => PlatformFindings(app, row.clusterName, row.platform)
    case NoActiveNodeMaintenance => MaintenanceFindings(app, row.clusterName, row.platform.activeMaintenanceNodes)
  }

  function Concat(gs: seq<Gate>, part: Gate -> seq<Finding>): seq<Finding>
  {
    if gs == [] then []
    else
      var n := |gs| - 1;
      Concat(gs[..n], part) + part(gs[n])
  }

  function RowPart(start: Time, app: string, row: Row): Gate -> seq<Finding>
  {
    g => PartFor(g, start, app, row)
  }

  function RowFindings(start: Time, app: string, row: Row): seq<Finding>
  {
    Concat(Visits(row), RowPart(start, app, row))
  }

  /** What a visit to one row notes, as a value: the loops below do not care what is inside. */
  type Visitor = (string, Row) -> seq<Finding>

  function VisitFrom(start: Time): Visitor
  {
    (app, row) => RowFindings(start, app, row)
  }

  function RowsFindings(visit: Visitor, app: string, rows: seq<Row>): seq<Finding>
  {
    if rows == [] then []
    else
      var n := |rows| - 1;
      RowsFindings(visit, app, rows[..n]) + visit(app, rows[n])
  }

  function MissingFindings(hub: bool, app: string, rows: seq<Row>): seq<Finding>
  {
    if rows == [] && !hub then
      [Finding(AllChangesApplied, Verdict(GateUnknown, "MissingAppPropagationStatus", [app], []),
               Some(Issue(app, "", "missing cluster propagation status", [], [])))]
    else []
  }

  /** Everything the nested loops note, in order. */
  function Scan(visit: Visitor, hub: bool, order: seq<string>, states: map<string, AppState>): seq<Finding>
  {
    if order == [] then []
    else
      var n := |order| - 1;
      var rows := RowsOf(states, order[n]);
      Scan(visit, hub, order[..n], states) + MissingFindings(hub, order[n], rows) + RowsFindings(visit, order[n], rows)
  }

  // ----- from findings to verdicts -----

  function InitialVerdict(spec: WindowSpec, g: Gate): Verdict
  {
    match g
    case ClusterVersionStable => Verdict(GateUnknown, "ClusterVersionNotReported", [], [])
    case ClusterOperatorsHealthy => Verdict(GateTrue, "AllClusterOperatorsHealthy", [], [])
    case PlatformOperatorsDeployed => Verdict(GateUnknown, "PlatformOperatorsNotReported", [], [])
    case MCPUpdatedOnTime => Verdict(GateTrue, "MachineConfigPoolConverged", [], [])
    case NoActiveNodeMaintenance => Verdict(GateTrue, "NoMaintenanceNodes", [], [])
    case AllChangesApplied =>
      if spec.impactedApps == [] then Verdict(GateUnknown, "NoImpactedAppsConfigured", [], [])
      else Verdict(GateTrue, "AllClustersInSync", [], [])
    case HealthCheckPassed => Verdict(GateTrue, "AllWorkloadsHealthy", [], [])
    case EventsClean => Verdict(GateTrue, "NoNewWarningEvents", [], [])
    case ObjectsConverged => Verdict(GateTrue, "AllObjectsConverged", [], [])
    case DependenciesReady => Verdict(GateTrue, "AllDependenciesReady", [], [])
    case VirtImpactPassed => Verdict(GateTrue, "VirtualizationPlatformHealthy", [], [])
  }

  /** A later finding overwrites an earlier one, except that unknown health never hides known bad health. */
  function Overwrite(standing: Verdict, f: Finding): Verdict
  {
    if f.gate == HealthCheckPassed && f.verdict.status == GateUnknown && standing.status == GateFalse then standing
    else f.verdict
  }

  function Settle(g: Gate, first: Verdict, fs: seq<Finding>): Verdict
  {
    if fs == [] then first
    else
      var n := |fs| - 1;
      var before := Settle(g, first, fs[..n]);
      if fs[n].gate == g then Overwrite(before, fs[n]) else before
  }

  function IssuesOf(fs: seq<Finding>): seq<Issue>
  {
    if fs == [] then []
    else
      var n := |fs| - 1;
      IssuesOf(fs[..n]) + (if fs[n].issue.Some? then [fs[n].issue.value] else [])
  }

  lemma {:induction false} SettleConcat(g: Gate, first: Verdict, a: seq<Finding>, b: seq<Finding>)
    ensures Settle(g, first, a + b) == Settle(g, Settle(g, first, a), b)
  {
    if b == [] {
      assert a + b == a;
    } else {
      var n := |b| - 1;
      assert (a + b)[..|a + b| - 1] == a + b[..n];
      SettleConcat(g, first, a, b[..n]);
    }
  }

  lemma {:induction false} IssuesConcat(a: seq<Finding>, b: seq<Finding>)
    ensures IssuesOf(a + b) == IssuesOf(a) + IssuesOf(b)
  {
    if b == [] {
      assert a + b == a;
    } else {
      var n := |b| - 1;
      assert (a + b)[..|a + b| - 1] == a + b[..n];
      IssuesConcat(a, b[..n]);
    }
  }

  /** Does the row carry the telemetry a gate needs to have seen somewhere? */
  predicate Reported(g: Gate, row: Row)
  {
    match g
    case ClusterOperatorsHealthy => row.platform.operators != []
    case MCPUpdatedOnTime => row.pool.name != "" || row.pool.phase != PoolUnset
    case VirtImpactPassed => row.virt.hyperConverged != HcoUnset && row.virt.hyperConverged != HcoUnknown
    case ClusterVersionStable => row.platform.clusterVersion.version != ""
        || row.platform.clusterVersion.desiredVersion != ""
    case PlatformOperatorsDeployed => row.platform.kubeVirt.phase != "" && row.platform.kubeVirt.phase != "Unknown"
    case _ => true
  }

  predicate AnyReported(g: Gate, rows: seq<Placed>)
  {
    exists p :: p in rows && Reported(g, p.row)
  }

  /** The corrections applied after the loops, when telemetry or rows were missing altogether. */
  function Finish(g: Gate, v: Verdict, reported: bool, total: nat): Verdict
  {
    match g
    case ClusterOperatorsHealthy =>
      if !reported then Verdict(GateUnknown, "ClusterOperatorsNotReported", [], [])
      else if total == 0 then v.(status := GateUnknown) else v
    case MCPUpdatedOnTime =>
      if !reported then Verdict(GateUnknown, "MCPStatusNotReported", [], [])
      else if total == 0 then v.(status := GateUnknown) else v
    case VirtImpactPassed =>
      if !reported then Verdict(GateUnknown, "VirtStatusNotReported", [], [])
      else if total == 0 then v.(status := GateUnknown) else v
    case AllChangesApplied =>
      if total == 0 then Verdict(GateUnknown, "NoClusterStatesObserved", [], []) else v
    case HealthCheckPassed => if total == 0 then v.(status := GateUnknown) else v
    case EventsClean => if total == 0 then v.(status := GateUnknown) else v
    case ObjectsConverged => if total == 0 then v.(status := GateUnknown) else v
    case DependenciesReady => if total == 0 then v.(status := GateUnknown) else v
    case ClusterVersionStable => v
    case PlatformOperatorsDeployed => v
    case NoActiveNodeMaintenance => v
  }

  function FinalVerdict(spec: WindowSpec, hub: bool, order: seq<string>, states: map<string, AppState>,
                        g: Gate): Verdict
  {
    var rows := Flatten(order, states);
    Finish(g, Settle(g, InitialVerdict(spec, g), Scan(VisitFrom(spec.startTime), hub, order, states)),
        AnyReported(g, rows), |rows|)
  }

  /** The timestamp survives as long as the same gate keeps saying the same thing. */
  function KeptObservedAt(prev: seq<GateResult>, g: Gate, v: Verdict, now: Time): Time
  {
    if prev == [] then now
    else if prev[0].gate == g then
      if prev[0].verdict == v && prev[0].observedAt != ZERO_TIME then prev[0].observedAt else now
    else KeptObservedAt(prev[1..], g, v, now)
  }

  function NoScopeIssues(spec: WindowSpec): seq<Issue>
  {
    if spec.impactedApps == [] then [Issue("", "", "spec.impactedApps is empty", [], [])] else []
  }

  function NoReportIssues(total: nat): seq<Issue>
  {
    if total == 0 then [Issue("", "", "no cluster reports available", [], [])] else []
  }

  function SilenceIssues(silent: seq<SilentCluster>): (r: seq<Issue>)
    ensures |r| == |silent|
  {
    if silent == [] then []
    else
      var n := |silent| - 1;
      SilenceIssues(silent[..n]) +
      [Issue(silent[n].app, silent[n].cluster, if silent[n].silence.WentSilentDuringChg? then "went silent"
          else "silent before start", [], [])]
  }

  function ResultFor(spec: WindowSpec, hub: bool, order: seq<string>, states: map<string, AppState>,
                     prev: seq<GateResult>, now: Time, g: Gate): GateResult
  {
    var v := FinalVerdict(spec, hub, order, states, g);
    GateResult(g, v, KeptObservedAt(prev, g, v, now))
  }

  function Results(spec: WindowSpec, hub: bool, order: seq<string>, states: map<string, AppState>,
                   prev: seq<GateResult>, now: Time): (rs: seq<GateResult>)
    ensures |rs| == |GATES|
    ensures forall i :: 0 <= i < |GATES| ==> rs[i] == ResultFor(spec, hub, order, states, prev, now, GATES[i])
  {
    seq(|GATES|, i requires 0 <= i < |GATES| => ResultFor(spec, hub, order, states, prev, now, GATES[i]))
  }

  predicate AllTrue(rs: seq<GateResult>)
  {
    forall i :: 0 <= i < |rs| ==> rs[i].verdict.status == GateTrue
  }

  function Evaluate(spec: WindowSpec, hub: bool, order: seq<string>, states: map<string, AppState>,
                    silent: seq<SilentCluster>, prev: seq<GateResult>, now: Time): Validation
  {
    var rs := Results(spec, hub, order, states, prev, now);
    Validation(rs,
               NoScopeIssues(spec) + IssuesOf(Scan(VisitFrom(spec.startTime), hub, order, states)) +
               NoReportIssues(|Flatten(order, states)|) + SilenceIssues(silent),
               AllTrue(rs) && silent == [] && spec.impactedApps != [])
  }
}
