/** The evaluator as it runs: nested loops that overwrite gate verdicts and collect issues. */
module GateLoops {
  import opened Base
  import opened Model
  import opened Gates
  import opened Text

  /** The verdicts and issues on hand are those of the findings seen so far. */
  ghost predicate Tracks(spec: WindowSpec, v: map<Gate, Verdict>, issues: seq<Issue>, seen: seq<Finding>)
  {
    && (forall g: Gate :: g in v && v[g] == Settle(g, InitialVerdict(spec, g), seen))
    && issues == NoScopeIssues(spec) + IssuesOf(seen)
  }

  method Note(spec: WindowSpec, v: map<Gate, Verdict>, issues: seq<Issue>, ghost seen: seq<Finding>, f: Finding)
    returns (v': map<Gate, Verdict>, issues': seq<Issue>)
    requires Tracks(spec, v, issues, seen)
    ensures Tracks(spec, v', issues', seen + [f])
  {
    assert (seen + [f])[..|seen|] == seen;
    v' := v[f.gate := Overwrite(v[f.gate], f)];
    issues' := issues;
    if f.issue.Some? {
      issues' := issues' + [f.issue.value];
    }
  }

  method VisitOperators(spec: WindowSpec, app: string, cluster: string, ops: seq<Operator>,
                        v: map<Gate, Verdict>, issues: seq<Issue>, ghost seen: seq<Finding>)
    returns (v': map<Gate, Verdict>, issues': seq<Issue>)
    requires Tracks(spec, v, issues, seen)
    ensures Tracks(spec, v', issues', seen + OperatorFindings(app, cluster, ops))
  {
    v', issues' := v, issues;
    assert seen + OperatorFindings(app, cluster, []) == seen;
    for i := 0 to |ops|
      invariant Tracks(spec, v', issues', seen + OperatorFindings(app, cluster, ops[..i]))
    {
      assert ops[..i + 1][..i] == ops[..i];
      ghost var soFar := seen + OperatorFindings(app, cluster, ops[..i]);
      var co := ops[i];
      if co.degraded || !co.available {
        var f := Fail(ClusterOperatorsHealthy, "ClusterOperatorDegradedOrUnavailable",
                      [co.name, BoolWord(co.degraded), BoolWord(co.available)], [],
                      Issue(app, cluster, "ClusterOperator", [co.name], []));
        v', issues' := Note(spec, v', issues', soFar, f);
        assert soFar + [f] == seen + OperatorFindings(app, cluster, ops[..i + 1]);
      }
    }
    assert ops[..|ops|] == ops;
  }

  method VisitEvents(spec: WindowSpec, app: string, cluster: string, evs: seq<EventSummary>,
                     v: map<Gate, Verdict>, issues: seq<Issue>, ghost seen: seq<Finding>)
    returns (v': map<Gate, Verdict>, issues': seq<Issue>)
    requires Tracks(spec, v, issues, seen)
    ensures Tracks(spec, v', issues', seen + EventFindings(app, cluster, spec.startTime, evs))
  {
    v', issues' := v, issues;
    assert seen + EventFindings(app, cluster, spec.startTime, []) == seen;
    for i := 0 to |evs|
      invariant Tracks(spec, v', issues', seen + EventFindings(app, cluster, spec.startTime, evs[..i]))
    {
      assert evs[..i + 1][..i] == evs[..i];
      ghost var soFar := seen + EventFindings(app, cluster, spec.startTime, evs[..i]);
      var ev := evs[i];
      if ev.lastObservedAt > spec.startTime || ev.lastObservedAt == spec.startTime {
        var f := Fail(EventsClean, "WarningEventsObserved", [ev.reason, ev.involvedObject, ev.message], [],
                      Issue(app, cluster, "Warning event", [ev.reason, ev.involvedObject], []));
        v', issues' := Note(spec, v', issues', soFar, f);
        assert soFar + [f] == seen + EventFindings(app, cluster, spec.startTime, evs[..i + 1]);
      }
    }
    assert evs[..|evs|] == evs;
  }

  method FailsSync(changeType: string) returns (failed: bool)
    ensures failed == SyncFailed(changeType)
  {
    var ct := ToLower(changeType);
    failed := ct == "failed" || ct == "syncfailed" || ct == "error" || ct == "syncerror"
              || (|ct| >= 4 && ct[..4] == "fail");
  }

  method VisitObjects(spec: WindowSpec, app: string, cluster: string, ocs: seq<ObjectChange>,
                      v: map<Gate, Verdict>, issues: seq<Issue>, ghost seen: seq<Finding>)
    returns (v': map<Gate, Verdict>, issues': seq<Issue>)
    requires Tracks(spec, v, issues, seen)
    ensures Tracks(spec, v', issues', seen + ObjectFindings(app, cluster, ocs))
  {
    v', issues' := v, issues;
    assert seen + ObjectFindings(app, cluster, []) == seen;
    for i := 0 to |ocs|
      invariant Tracks(spec, v', issues', seen + ObjectFindings(app, cluster, ocs[..i]))
    {
      assert ocs[..i + 1][..i] == ocs[..i];
      ghost var soFar := seen + ObjectFindings(app, cluster, ocs[..i]);
      var oc := ocs[i];
      var failed := FailsSync(oc.changeType);
      if failed {
        var f := Fail(ObjectsConverged, "ObjectSyncFailed", [oc.kind, oc.name, oc.changeType], [],
                      Issue(app, cluster, "object failed sync", [oc.kind, oc.name], []));
        v', issues' := Note(spec, v', issues', soFar, f);
        assert soFar + [f] == seen + ObjectFindings(app, cluster, ocs[..i + 1]);
      }
    }
    assert ocs[..|ocs|] == ocs;
  }

  method VisitDependencies(spec: WindowSpec, app: string, cluster: string, deps: seq<Dependency>,
                           v: map<Gate, Verdict>, issues: seq<Issue>, ghost seen: seq<Finding>)
    returns (v': map<Gate, Verdict>, issues': seq<Issue>)
    requires Tracks(spec, v, issues, seen)
    ensures Tracks(spec, v', issues', seen + DependencyFindings(app, cluster, deps))
  {
    v', issues' := v, issues;
    assert seen + DependencyFindings(app, cluster, []) == seen;
    for i := 0 to |deps|
      invariant Tracks(spec, v', issues', seen + DependencyFindings(app, cluster, deps[..i]))
    {
      assert deps[..i + 1][..i] == deps[..i];
      ghost var soFar := seen + DependencyFindings(app, cluster, deps[..i]);
      var dep := deps[i];
      if !dep.ready {
        var f := Fail(DependenciesReady, "DependencyNotReady", [dep.kind, dep.name, dep.note], [],
                      Issue(app, cluster, "dependency not ready", [dep.kind, dep.name], []));
        v', issues' := Note(spec, v', issues', soFar, f);
        assert soFar + [f] == seen + DependencyFindings(app, cluster, deps[..i + 1]);
      }
    }
    assert deps[..|deps|] == deps;
  }

  /** One finding more, however it was worked into the records. */
  lemma {:induction false} OneMoreTracked(spec: WindowSpec, v: map<Gate, Verdict>, issues: seq<Issue>,
                                          seen: seq<Finding>, f: Finding)
    requires Tracks(spec, v, issues, seen)
    ensures Tracks(spec, v[f.gate := Overwrite(v[f.gate], f)],
                   issues + if f.issue.Some? then [f.issue.value] else [], seen + [f])
  {
    assert (seen + [f])[..|seen|] == seen;
  }

  method VisitSync(spec: WindowSpec, app: string, row: Row, v: map<Gate, Verdict>, issues: seq<Issue>,
                   ghost seen: seq<Finding>)
    returns (v': map<Gate, Verdict>, issues': seq<Issue>)
    requires Tracks(spec, v, issues, seen)
    ensures Tracks(spec, v', issues', seen + SyncFindings(app, row))
  {
    v', issues' := v, issues;
    if row.state != InSync {
      var state := StateWord(row.state);
      var f := Fail(AllChangesApplied, "ClusterNotInSync", [app, row.clusterName, state], [],
                    Issue(app, row.clusterName, "state", [state], []));
      v', issues' := Note(spec, v, issues, seen, f);
    } else {
      assert seen + [] == seen;
    }
  }

  /** Unknown health is only noted when no row has been found unhealthy yet; the issue is raised either way. */
  method VisitHealth(spec: WindowSpec, app: string, row: Row, v: map<Gate, Verdict>, issues: seq<Issue>,
                     ghost seen: seq<Finding>)
    returns (v': map<Gate, Verdict>, issues': seq<Issue>)
    requires Tracks(spec, v, issues, seen)
    ensures Tracks(spec, v', issues', seen + HealthFindings(app, row))
  {
    v', issues' := v, issues;
    if row.health != Healthy {
      var c := row.clusterName;
      if row.health == HealthUnset || row.health == HealthUnknown {
        if v[HealthCheckPassed].status != GateFalse {
          v' := v'[HealthCheckPassed := Verdict(GateUnknown, "WorkloadHealthUnknown", [app, c], [])];
        }
      } else {
        var verdict := Verdict(GateFalse, "WorkloadUnhealthy", [app, c, HealthWord(row.health)], []);
        v' := v'[HealthCheckPassed := verdict];
      }
      issues' := issues' + [Issue(app, c, "health", [HealthWord(row.health)], [])];
      OneMoreTracked(spec, v, issues, seen, HealthFindings(app, row)[0]);
      assert HealthFindings(app, row) == [HealthFindings(app, row)[0]];
      assert v' == v[HealthCheckPassed := Overwrite(v[HealthCheckPassed], HealthFindings(app, row)[0])];
    } else {
      assert seen + [] == seen;
    }
  }

  method VisitPool(spec: WindowSpec, app: string, c: string, mcp: Pool, v: map<Gate, Verdict>, issues: seq<Issue>,
                   ghost seen: seq<Finding>)
    returns (v': map<Gate, Verdict>, issues': seq<Issue>)
    requires Tracks(spec, v, issues, seen)
    ensures Tracks(spec, v', issues', seen + PoolFindings(app, c, mcp))
  {
    v', issues' := v, issues;
    ghost var none: seq<Finding> := [];
    assert seen + none == seen;
    if mcp.name != "" || mcp.phase != PoolUnset {
      if mcp.phase == PoolDegraded || mcp.degradedNodeCount > 0 {
        var f := Fail(MCPUpdatedOnTime, "MCPDegraded", [mcp.name], [mcp.degradedNodeCount],
                      Issue(app, c, "MCP degraded", [mcp.name], []));
        v', issues' := Note(spec, v, issues, seen, f);
      } else if mcp.phase == PoolUpdating || mcp.updatingNodeCount > 0 || mcp.unavailableNodeCount > 0 {
        var f := Fail(MCPUpdatedOnTime, "MCPUpdatingOrUnavailable", [mcp.name],
                      [mcp.updatingNodeCount, mcp.unavailableNodeCount],
                      Issue(app, c, "MCP updating/unavailable", [mcp.name], []));
        v', issues' := Note(spec, v, issues, seen, f);
      } else if mcp.machineCount > 0 && mcp.readyMachineCount < mcp.machineCount {
        var f := Fail(MCPUpdatedOnTime, "MCPNodesNotReady", [mcp.name], [mcp.readyMachineCount, mcp.machineCount],
                      Issue(app, c, "MCP not all nodes ready", [mcp.name], []));
        v', issues' := Note(spec, v, issues, seen, f);
      } else if mcp.desiredRenderedConfig != "" && mcp.currentRenderedConfig != ""
                && mcp.desiredRenderedConfig != mcp.currentRenderedConfig {
        var f := Fail(MCPUpdatedOnTime, "MCPConfigMismatch",
                      [mcp.name, mcp.currentRenderedConfig, mcp.desiredRenderedConfig], [],
                      Issue(app, c, "MCP config mismatch", [mcp.name], []));
        v', issues' := Note(spec, v, issues, seen, f);
      }
    }
  }

  function When(cond: bool, f: Finding): seq<Finding> { if cond then [f] else [] }

  method NoteWhen(spec: WindowSpec, cond: bool, f: Finding, v: map<Gate, Verdict>, issues: seq<Issue>,
                  ghost seen: seq<Finding>)
    returns (v': map<Gate, Verdict>, issues': seq<Issue>)
    requires Tracks(spec, v, issues, seen)
    ensures Tracks(spec, v', issues', seen + When(cond, f))
  {
    v', issues' := v, issues;
    if cond {
      v', issues' := Note(spec, v, issues, seen, f);
    } else {
      assert seen + [] == seen;
    }
  }

  method NoteFour(spec: WindowSpec, a: bool, fa: Finding, b: bool, fb: Finding, c: bool, fc: Finding, d: bool,
                  fd: Finding, v: map<Gate, Verdict>, issues: seq<Issue>, ghost seen: seq<Finding>)
    returns (v': map<Gate, Verdict>, issues': seq<Issue>)
    requires Tracks(spec, v, issues, seen)
    ensures Tracks(spec, v', issues', seen + (When(a, fa) + When(b, fb) + When(c, fc) + When(d, fd)))
  {
    v', issues' := NoteWhen(spec, a, fa, v, issues, seen);
    v', issues' := NoteWhen(spec, b, fb, v', issues', seen + When(a, fa));
    v', issues' := NoteWhen(spec, c, fc, v', issues', seen + When(a, fa) + When(b, fb));
    v', issues' := NoteWhen(spec, d, fd, v', issues', seen + When(a, fa) + When(b, fb) + When(c, fc));
    Regroup(seen, When(a, fa), When(b, fb), When(c, fc), When(d, fd));
  }

  lemma {:induction false} Regroup(seen: seq<Finding>, a: seq<Finding>, b: seq<Finding>, c: seq<Finding>,
                                   d: seq<Finding>)
    ensures seen + a + b + c + d == seen + (a + b + c + d)
  {
  }

  /** Four independent checks of the same gate. */
  method VisitVirt(spec: WindowSpec, app: string, c: string, virt: Virt, v: map<Gate, Verdict>, issues: seq<Issue>,
                   ghost seen: seq<Finding>)
    returns (v': map<Gate, Verdict>, issues': seq<Issue>)
    requires Tracks(spec, v, issues, seen)
    ensures Tracks(spec, v', issues', seen + VirtFindings(app, c, virt))
  {
    v', issues' := NoteFour(spec,
        virt.hyperConverged == HcoDegraded,
        Fail(VirtImpactPassed, "HyperConvergedDegraded", [], [], Issue(app, c, "HyperConverged degraded", [], [])),
        !virt.virtHandlerReady,
        Fail(VirtImpactPassed, "VirtHandlerNotReady", [], [], Issue(app, c, "virt-handler unready", [], [])),
        virt.stalledMigrations > 0,
        Fail(VirtImpactPassed, "StalledMigrations", [], [virt.stalledMigrations],
             Issue(app, c, "stalled migrations", [], [virt.stalledMigrations])),
        virt.unmigratableVMIs > 0,
        Fail(VirtImpactPassed, "UnmigratableVMIs", [], [virt.unmigratableVMIs],
             Issue(app, c, "unmigratable VMIs", [], [virt.unmigratableVMIs])),
        v, issues, seen);
  }

  method VisitVersion(spec: WindowSpec, app: string, c: string, cv: ClusterVersion, v: map<Gate, Verdict>,
                      issues: seq<Issue>, ghost seen: seq<Finding>)
    returns (v': map<Gate, Verdict>, issues': seq<Issue>)
    requires Tracks(spec, v, issues, seen)
    ensures Tracks(spec, v', issues', seen + VersionFindings(app, c, cv))
  {
    v', issues' := v, issues;
    ghost var none: seq<Finding> := [];
    assert seen + none == seen;
    if cv.version != "" || cv.desiredVersion != "" {
      var f;
      if cv.progressing {
        f := Fail(ClusterVersionStable, "ClusterVersionProgressing", [cv.version, cv.desiredVersion], [],
                  Issue(app, c, "ClusterVersion upgrading", [], []));
      } else if cv.available {
        f := Finding(ClusterVersionStable, Verdict(GateTrue, "ClusterVersionStable", [cv.version], []), None);
      } else {
        f := Fail(ClusterVersionStable, "ClusterVersionNotAvailable", [], [],
                  Issue(app, c, "ClusterVersion not available", [], []));
      }
      v', issues' := Note(spec, v, issues, seen, f);
    }
  }

  method VisitPlatform(spec: WindowSpec, app: string, c: string, po: Platform, v: map<Gate, Verdict>,
                       issues: seq<Issue>, ghost seen: seq<Finding>)
    returns (v': map<Gate, Verdict>, issues': seq<Issue>)
    requires Tracks(spec, v, issues, seen)
    ensures Tracks(spec, v', issues', seen + PlatformFindings(app, c, po))
  {
    v', issues' := v, issues;
    ghost var none: seq<Finding> := [];
    assert seen + none == seen;
    if po.kubeVirt.phase != "" && po.kubeVirt.phase != "Unknown" {
      var f;
      if po.kubeVirt.ready && po.cdi.ready && po.ssp.ready {
        f := Finding(PlatformOperatorsDeployed, Verdict(GateTrue, "AllPlatformOperatorsDeployed", [], []), None);
      } else {
        var notReady: seq<string> := [];
        if !po.kubeVirt.ready {
          notReady := notReady + ["KubeVirt", po.kubeVirt.phase];
        }
        if !po.cdi.ready {
          notReady := notReady + ["CDI", po.cdi.phase];
        }
        if !po.ssp.ready {
          notReady := notReady + ["SSP", po.ssp.phase];
        }
        assert notReady == (if !po.kubeVirt.ready then ["KubeVirt", po.kubeVirt.phase] else [])
                           + (if !po.cdi.ready then ["CDI", po.cdi.phase] else [])
                           + (if !po.ssp.ready then ["SSP", po.ssp.phase] else []);
        f := Fail(PlatformOperatorsDeployed, "PlatformOperatorNotDeployed", notReady, [],
                  Issue(app, c, "platform operators not deployed", notReady, []));
      }
      v', issues' := Note(spec, v, issues, seen, f);
    }
  }

  method VisitMaintenance(spec: WindowSpec, app: string, c: string, nodes: Int32, v: map<Gate, Verdict>,
                          issues: seq<Issue>, ghost seen: seq<Finding>)
    returns (v': map<Gate, Verdict>, issues': seq<Issue>)
    requires Tracks(spec, v, issues, seen)
    ensures Tracks(spec, v', issues', seen + MaintenanceFindings(app, c, nodes))
  {
    v', issues' := v, issues;
    if nodes > 0 {
      var f := Fail(NoActiveNodeMaintenance, "ActiveNodeMaintenance", [], [nodes],
                    Issue(app, c, "nodes under maintenance", [], [nodes]));
      v', issues' := Note(spec, v, issues, seen, f);
    } else {
      assert seen + [] == seen;
    }
  }

  lemma {:induction false} PartsStep(gs: seq<Gate>, part: Gate -> seq<Finding>, k: nat, seen: seq<Finding>)
    requires k < |gs|
    ensures seen + Concat(gs[..k], part) + part(gs[k]) == seen + Concat(gs[..k + 1], part)
  {
    assert gs[..k + 1][..k] == gs[..k];
  }

  method VisitGate(spec: WindowSpec, g: Gate, app: string, row: Row, v: map<Gate, Verdict>, issues: seq<Issue>,
                   ghost seen: seq<Finding>)
    returns (v': map<Gate, Verdict>, issues': seq<Issue>)
    requires Tracks(spec, v, issues, seen)
    ensures Tracks(spec, v', issues', seen + PartFor(g, spec.startTime, app, row))
  {
    var c := row.clusterName;
    match g {
      case ClusterOperatorsHealthy => v',
          issues' := VisitOperators(spec, app, c, row.platform.operators, v, issues, seen);
      case AllChangesApplied => v', issues' := VisitSync(spec, app, row, v, issues, seen);
      case HealthCheckPassed => v', issues' := VisitHealth(spec, app, row, v, issues, seen);
      case MCPUpdatedOnTime => v', issues' := VisitPool(spec, app, c, row.pool, v, issues, seen);
      case EventsClean => v', issues' := VisitEvents(spec, app, c, row.recentEvents, v, issues, seen);
      case ObjectsConverged => v', issues' := VisitObjects(spec, app, c, row.objectChanges, v, issues, seen);
      case DependenciesReady => v', issues' := VisitDependencies(spec, app, c, row.dependencies, v, issues, seen);
      case VirtImpactPassed => v', issues' := VisitVirt(spec, app, c, row.virt, v, issues, seen);
      case ClusterVersionStable => v',
          issues' := VisitVersion(spec, app, c, row.platform.clusterVersion, v, issues, seen);
      case PlatformOperatorsDeployed => v', issues' := VisitPlatform(spec, app, c, row.platform, v, issues, seen);
      case NoActiveNodeMaintenance => v',
          issues' := VisitMaintenance(spec, app, c, row.platform.activeMaintenanceNodes, v, issues, seen);
    }
  }

  /** The gates of one row, one after the other. */
  method VisitGates(spec: WindowSpec, gs: seq<Gate>, app: string, row: Row, v: map<Gate, Verdict>, issues: seq<Issue>,
                    ghost seen: seq<Finding>)
    returns (v': map<Gate, Verdict>, issues': seq<Issue>)
    requires Tracks(spec, v, issues, seen)
    ensures Tracks(spec, v', issues', seen + Concat(gs, RowPart(spec.startTime, app, row)))
  {
    ghost var part := RowPart(spec.startTime, app, row);
    v', issues' := v, issues;
    assert seen + Concat(gs[..0], part) == seen;
    for k := 0 to |gs|
      invariant Tracks(spec, v', issues', seen + Concat(gs[..k], part))
    {
      PartsStep(gs, part, k, seen);
      v', issues' := VisitGate(spec, gs[k], app, row, v', issues', seen + Concat(gs[..k], part));
    }
    assert gs[..|gs|] == gs;
  }

  method VisitRow(spec: WindowSpec, app: string, row: Row, v: map<Gate, Verdict>, issues: seq<Issue>,
                  ghost seen: seq<Finding>)
    returns (v': map<Gate, Verdict>, issues': seq<Issue>)
    requires Tracks(spec, v, issues, seen)
    ensures Tracks(spec, v', issues', seen + VisitFrom(spec.startTime)(app, row))
  {
    v', issues' := VisitGates(spec, Visits(row), app, row, v, issues, seen);
  }

  method VisitRows(spec: WindowSpec, app: string, rows: seq<Row>, v: map<Gate, Verdict>, issues: seq<Issue>,
                   ghost seen: seq<Finding>)
    returns (v': map<Gate, Verdict>, issues': seq<Issue>)
    requires Tracks(spec, v, issues, seen)
    ensures Tracks(spec, v', issues', seen + RowsFindings(VisitFrom(spec.startTime), app, rows))
  {
    ghost var visit := VisitFrom(spec.startTime);
    v', issues' := v, issues;
    assert seen + RowsFindings(visit, app, rows[..0]) == seen;
    for i := 0 to |rows|
      invariant Tracks(spec, v', issues', seen + RowsFindings(visit, app, rows[..i]))
    {
      RowsStep(visit, app, rows, i, seen);
      v', issues' := VisitRow(spec, app, rows[i], v', issues', seen + RowsFindings(visit, app, rows[..i]));
    }
    assert rows[..|rows|] == rows;
  }

  lemma {:induction false} RowsStep(visit: Visitor, app: string, rows: seq<Row>, i: nat, seen: seq<Finding>)
    requires i < |rows|
    ensures seen + RowsFindings(visit, app, rows[..i]) + visit(app, rows[i]) == seen
            + RowsFindings(visit, app, rows[..i + 1])
  {
    assert rows[..i + 1][..i] == rows[..i];
  }

  method VisitApp(spec: WindowSpec, hub: bool, app: string, rows: seq<Row>, v: map<Gate, Verdict>, issues: seq<Issue>,
                  ghost seen: seq<Finding>)
    returns (v': map<Gate, Verdict>, issues': seq<Issue>)
    requires Tracks(spec, v, issues, seen)
    ensures Tracks(spec, v', issues', seen + MissingFindings(hub, app, rows)
            + RowsFindings(VisitFrom(spec.startTime), app, rows))
  {
    v', issues' := v, issues;
    ghost var soFar := seen;
    if |rows| == 0 && !hub {
      var f := Finding(AllChangesApplied, Verdict(GateUnknown, "MissingAppPropagationStatus", [app], []),
                       Some(Issue(app, "", "missing cluster propagation status", [], [])));
      v', issues' := Note(spec, v', issues', seen, f);
      soFar := seen + [f];
    }
    assert soFar == seen + MissingFindings(hub, app, rows);
    v', issues' := VisitRows(spec, app, rows, v', issues', soFar);
  }

  /** Was the telemetry behind `g` seen on any row? The source keeps one flag per gate while it loops. */
  method SawTelemetry(g: Gate, app: string, rows: seq<Row>, flag: bool, ghost before: seq<Placed>) returns (flag': bool)
    requires g in {ClusterOperatorsHealthy, MCPUpdatedOnTime, VirtImpactPassed}
    requires flag == AnyReported(g, before)
    ensures flag' == AnyReported(g, before + Place(app, rows))
  {
    flag' := flag;
    assert before + Place(app, rows[..0]) == before;
    for i := 0 to |rows|
      invariant flag' == AnyReported(g, before + Place(app, rows[..i]))
    {
      ghost var soFar := before + Place(app, rows[..i]);
      assert before + Place(app, rows[..i + 1]) == soFar + [Placed(app, rows[i])];
      var cs := rows[i];
      var here :=
        match g
        case ClusterOperatorsHealthy => |cs.platform.operators| > 0
        case MCPUpdatedOnTime => cs.pool.name != "" || cs.pool.phase != PoolUnset
        case _ => cs.virt.hyperConverged != HcoUnset && cs.virt.hyperConverged != HcoUnknown;
      if here {
        flag' := true;
        assert Placed(app, rows[i]) in soFar + [Placed(app, rows[i])];
      }
      assert forall p :: p in soFar + [Placed(app, rows[i])] <==> p in soFar || p == Placed(app, rows[i]);
    }
    assert rows[..|rows|] == rows;
  }

  method KeepObservedAt(prev: seq<GateResult>, g: Gate, v: Verdict, now: Time) returns (t: Time)
    ensures t == KeptObservedAt(prev, g, v, now)
  {
    t := now;
    var i := 0;
    while i < |prev|
      invariant 0 <= i <= |prev|
      invariant t == now
      invariant KeptObservedAt(prev, g, v, now) == KeptObservedAt(prev[i..], g, v, now)
    {
      if prev[i].gate == g {
        if prev[i].verdict == v && prev[i].observedAt != ZERO_TIME {
          t := prev[i].observedAt;
        }
        return;
      }
      assert prev[i..][1..] == prev[i + 1..];
      i := i + 1;
    }
  }

  /** The records before the loops: eight gates start True, two Unknown, and one depends on the scope. */
  method Initially(spec: WindowSpec) returns (v: map<Gate, Verdict>, issues: seq<Issue>)
    ensures Tracks(spec, v, issues, [])
  {
    v := map[
      ClusterOperatorsHealthy := Verdict(GateTrue, "AllClusterOperatorsHealthy", [], []),
      AllChangesApplied := Verdict(GateTrue, "AllClustersInSync", [], []),
      HealthCheckPassed := Verdict(GateTrue, "AllWorkloadsHealthy", [], []),
      MCPUpdatedOnTime := Verdict(GateTrue, "MachineConfigPoolConverged", [], []),
      EventsClean := Verdict(GateTrue, "NoNewWarningEvents", [], []),
      ObjectsConverged := Verdict(GateTrue, "AllObjectsConverged", [], []),
      DependenciesReady := Verdict(GateTrue, "AllDependenciesReady", [], []),
      VirtImpactPassed := Verdict(GateTrue, "VirtualizationPlatformHealthy", [], []),
      ClusterVersionStable := Verdict(GateUnknown, "ClusterVersionNotReported", [], []),
      PlatformOperatorsDeployed := Verdict(GateUnknown, "PlatformOperatorsNotReported", [], []),
      NoActiveNodeMaintenance := Verdict(GateTrue, "NoMaintenanceNodes", [], [])];
    issues := [];
    if |spec.impactedApps| == 0 {
      v := v[AllChangesApplied := Verdict(GateUnknown, "NoImpactedAppsConfigured", [], [])];
      issues := issues + [Issue("", "", "spec.impactedApps is empty", [], [])];
    }
    forall g: Gate ensures g in v && v[g] == InitialVerdict(spec, g) {
      match g {
        case ClusterVersionStable =>
        case _ =>
      }
    }
  }

  /** The evaluator: whatever order the applications come in, it computes `Evaluate`. */
  method EvaluateGates(spec: WindowSpec, hub: bool, order: seq<string>, states: map<string, AppState>,
                       silent: seq<SilentCluster>, prev: seq<GateResult>, now: Time)
    returns (res: Validation)
    ensures res == Evaluate(spec, hub, order, states, silent, prev, now)
  {
    var v, issues := Initially(spec);
    var total, sawOps, sawPools, sawVirt := 0, false, false, false;
    for i := 0 to |order|
      invariant Tracks(spec, v, issues, Scan(VisitFrom(spec.startTime), hub, order[..i], states))
      invariant total == |Flatten(order[..i], states)|
      invariant sawOps == AnyReported(ClusterOperatorsHealthy, Flatten(order[..i], states))
      invariant sawPools == AnyReported(MCPUpdatedOnTime, Flatten(order[..i], states))
      invariant sawVirt == AnyReported(VirtImpactPassed, Flatten(order[..i], states))
    {
      assert order[..i + 1][..i] == order[..i];
      var rows := RowsOf(states, order[i]);
      v, issues := VisitApp(spec, hub, order[i], rows, v, issues,
          Scan(VisitFrom(spec.startTime), hub, order[..i], states));
      ghost var before := Flatten(order[..i], states);
      sawOps := SawTelemetry(ClusterOperatorsHealthy, order[i], rows, sawOps, before);
      sawPools := SawTelemetry(MCPUpdatedOnTime, order[i], rows, sawPools, before);
      sawVirt := SawTelemetry(VirtImpactPassed, order[i], rows, sawVirt, before);
      total := total + |rows|;
    }
    assert order[..|order|] == order;
    res := Conclude(spec, hub, order, states, silent, prev, now, v, issues, total, sawOps, sawPools, sawVirt);
  }

  /** Missing telemetry leaves three gates Unknown. */
  method CorrectTelemetry(v: map<Gate, Verdict>, sawOps: bool, sawPools: bool, sawVirt: bool)
    returns (w: map<Gate, Verdict>)
    requires forall g: Gate :: g in v
    ensures forall g: Gate :: g in w && w[g] ==
              match g
              case ClusterOperatorsHealthy =>
                if sawOps then v[g] else Verdict(GateUnknown, "ClusterOperatorsNotReported", [], [])
              case MCPUpdatedOnTime =>
                if sawPools then v[g] else Verdict(GateUnknown, "MCPStatusNotReported", [], [])
              case VirtImpactPassed =>
                if sawVirt then v[g] else Verdict(GateUnknown, "VirtStatusNotReported", [], [])
              case _ => v[g]
  {
    w := v;
    if !sawOps {
      w := w[ClusterOperatorsHealthy := Verdict(GateUnknown, "ClusterOperatorsNotReported", [], [])];
    }
    if !sawPools {
      w := w[MCPUpdatedOnTime := Verdict(GateUnknown, "MCPStatusNotReported", [], [])];
    }
    if !sawVirt {
      w := w[VirtImpactPassed := Verdict(GateUnknown, "VirtStatusNotReported", [], [])];
    }
  }

  /** Was the telemetry of a gate seen, as far as the gate depends on it? */
  function Saw(g: Gate, sawOps: bool, sawPools: bool, sawVirt: bool): bool
  {
    match g
    case ClusterOperatorsHealthy => sawOps
    case MCPUpdatedOnTime => sawPools
    case VirtImpactPassed => sawVirt
    case _ => true
  }

  /** Missing rows leave eight gates Unknown. */
  method Correct(v: map<Gate, Verdict>, total: nat, sawOps: bool, sawPools: bool, sawVirt: bool)
    returns (w: map<Gate, Verdict>)
    requires forall g: Gate :: g in v
    ensures forall g: Gate :: g in w && w[g] == Finish(g, v[g], Saw(g, sawOps, sawPools, sawVirt), total)
  {
    var gs := [ClusterOperatorsHealthy, HealthCheckPassed, MCPUpdatedOnTime, EventsClean, ObjectsConverged,
               DependenciesReady, VirtImpactPassed];
    w := CorrectTelemetry(v, sawOps, sawPools, sawVirt);
    if total == 0 {
      w := w[AllChangesApplied := Verdict(GateUnknown, "NoClusterStatesObserved", [], [])];
      w := Unsettle(w, gs);
    }
    forall g: Gate ensures w[g] == Finish(g, v[g], Saw(g, sawOps, sawPools, sawVirt), total) {
      assert g in gs <==> g !in {AllChangesApplied, ClusterVersionStable, PlatformOperatorsDeployed,
                                 NoActiveNodeMaintenance};
    }
  }

  /** Each of these gates becomes Unknown and keeps its reason. */
  method Unsettle(v: map<Gate, Verdict>, gs: seq<Gate>) returns (w: map<Gate, Verdict>)
    requires forall g: Gate :: g in v
    ensures forall g: Gate :: g in w && w[g] == if g in gs then v[g].(status := GateUnknown) else v[g]
  {
    w := v;
    for i := 0 to |gs|
      invariant forall g: Gate :: g in w && w[g] == if g in gs[..i] then v[g].(status := GateUnknown) else v[g]
    {
      w := w[gs[i] := w[gs[i]].(status := GateUnknown)];
    }
  }

  /** Silent clusters are listed among the issues. */
  method NoteSilence(issues: seq<Issue>, silent: seq<SilentCluster>) returns (issues': seq<Issue>)
    ensures issues' == issues + SilenceIssues(silent)
  {
    issues' := issues;
    assert issues + SilenceIssues(silent[..0]) == issues;
    for i := 0 to |silent|
      invariant issues' == issues + SilenceIssues(silent[..i])
    {
      assert silent[..i + 1][..i] == silent[..i];
      var s := silent[i];
      var topic := if s.silence == WentSilentDuringChg then "went silent" else "silent before start";
      issues' := issues' + [Issue(s.app, s.cluster, topic, [], [])];
    }
    assert silent[..|silent|] == silent;
  }

  /** What the corrections leave is the final verdict of each gate. */
  lemma {:induction false} CorrectedIsFinal(spec: WindowSpec, hub: bool, order: seq<string>,
                                            states: map<string, AppState>, g: Gate, v: Verdict, saw: bool)
    requires v == Settle(g, InitialVerdict(spec, g), Scan(VisitFrom(spec.startTime), hub, order, states))
    requires g in {ClusterOperatorsHealthy, MCPUpdatedOnTime, VirtImpactPassed}
             ==> saw == AnyReported(g, Flatten(order, states))
    ensures Finish(g, v, saw, |Flatten(order, states)|) == FinalVerdict(spec, hub, order, states, g)
  {
  }

  /** After the loops: corrections for missing telemetry, kept timestamps, and the overall verdict. */
  method Conclude(spec: WindowSpec, ghost hub: bool, ghost order: seq<string>, ghost states: map<string, AppState>,
                  silent: seq<SilentCluster>, prev: seq<GateResult>, now: Time,
                  v: map<Gate, Verdict>, issues: seq<Issue>, total: nat, sawOps: bool, sawPools: bool, sawVirt: bool)
    returns (res: Validation)
    requires Tracks(spec, v, issues, Scan(VisitFrom(spec.startTime), hub, order, states))
    requires total == |Flatten(order, states)|
    requires sawOps == AnyReported(ClusterOperatorsHealthy, Flatten(order, states))
    requires sawPools == AnyReported(MCPUpdatedOnTime, Flatten(order, states))
    requires sawVirt == AnyReported(VirtImpactPassed, Flatten(order, states))
    ensures res == Evaluate(spec, hub, order, states, silent, prev, now)
  {
    var w := Correct(v, total, sawOps, sawPools, sawVirt);
    forall g: Gate ensures g in w && w[g] == FinalVerdict(spec, hub, order, states, g) {
      CorrectedIsFinal(spec, hub, order, states, g, v[g], Saw(g, sawOps, sawPools, sawVirt));
    }
    var results, allTrue := ListResults(spec, hub, order, states, prev, now, w);
    var all := issues;
    if total == 0 {
      all := all + [Issue("", "", "no cluster reports available", [], [])];
    }
    assert all == issues + NoReportIssues(total);
    all := NoteSilence(all, silent);
    res := Validation(results, all, allTrue && |silent| == 0 && |spec.impactedApps| > 0);
  }

  /** The results in the order in which they are reported, with kept or renewed timestamps. */
  method ListResults(ghost spec: WindowSpec, ghost hub: bool, ghost order: seq<string>,
                     ghost states: map<string, AppState>, prev: seq<GateResult>, now: Time, w: map<Gate, Verdict>)
    returns (results: seq<GateResult>, allTrue: bool)
    requires forall g: Gate :: g in w && w[g] == FinalVerdict(spec, hub, order, states, g)
    ensures results == Results(spec, hub, order, states, prev, now) && allTrue == AllTrue(results)
  {
    var gs := GATES;
    results, allTrue := [], true;
    for i := 0 to |gs|
      invariant |results| == i
      invariant forall k :: 0 <= k < i ==> results[k] == ResultFor(spec, hub, order, states, prev, now, gs[k])
      invariant allTrue == AllTrue(results)
    {
      var t := KeepObservedAt(prev, gs[i], w[gs[i]], now);
      allTrue := allTrue && w[gs[i]].status == GateTrue;
      results := results + [GateResult(gs[i], w[gs[i]], t)];
    }
  }
}
