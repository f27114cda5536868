/**
 * Three of the eleven gates never decide anything: rows the aggregator builds from agent reports carry warning events,
 * object changes or dependencies only when they already fail `AllChangesApplied` or `HealthCheckPassed`.
 */
module Redundancy {
  import opened Base
  import opened Model
  import opened Gates
  import opened GateTheorems
  import opened LocalReport
  import P = Propagation

  predicate Diagnostic(g: Gate)
  {
    g == EventsClean || g == ObjectsConverged || g == DependenciesReady
  }

  /** A row with diagnostics is out of sync or degraded. */
  predicate RowGated(row: Row)
  {
    HasDiagnostics(row.recentEvents, row.objectChanges, row.dependencies) ==>
        row.state != InSync
        || row.health == Degraded
  }

  /** The agent's gating survives aggregation: an out-of-sync report never becomes an InSync row. */
  lemma {:induction false} AggregationKeepsGating(prev: P.Fleet, look: P.Look, i: nat)
    requires forall j :: 0 <= j < |look.reports| ==> Gated(look.reports[j])
    requires i < |P.Aggregate(prev, look).rows|
    ensures RowGated(P.Aggregate(prev, look).rows[i])
  {
    P.RowFacts(prev, look);
    P.RowsMatchTargets(prev, look, i);
    var row := P.Aggregate(prev, look).rows[i];
    if !row.state.Missing? {
      var j :| P.IsLast(look.reports, j, row.clusterName) && P.Copies(row, look.reports[j]);
      assert Gated(look.reports[j]);
    }
  }

  lemma {:induction false} DiagnosticGateHolds(g: Gate, spec: WindowSpec, hub: bool, states: map<string, AppState>)
    requires Diagnostic(g) && AllRows(states, row => RowGated(row))
    requires GateHolds(AllChangesApplied, spec, hub, states) && GateHolds(HealthCheckPassed, spec, hub, states)
    ensures GateHolds(g, spec, hub, states)
  {
    forall a, r | RowIn(states, a, r) ensures GateTheorems.Good(g, spec.startTime)(r) {
      assert GateTheorems.Good(AllChangesApplied, spec.startTime)(r)
             && GateTheorems.Good(HealthCheckPassed, spec.startTime)(r);
      assert (row => RowGated(row))(r);
    }
  }

  /** Whatever a diagnostic gate objects to, a gate that stays objects too. */
  lemma {:induction false} DiagnosticGatesFollow(g: Gate, spec: WindowSpec, hub: bool, order: seq<string>,
                                                 states: map<string, AppState>)
    requires Diagnostic(g)
    requires Enumerates(order, states.Keys) && AllRows(states, row => RowGated(row))
    ensures FinalVerdict(spec, hub, order, states, g).status != GateTrue ==>
              || FinalVerdict(spec, hub, order, states, AllChangesApplied).status != GateTrue
              || FinalVerdict(spec, hub, order, states, HealthCheckPassed).status != GateTrue
  {
    GateMeaning(g, spec, hub, order, states);
    GateMeaning(AllChangesApplied, spec, hub, order, states);
    GateMeaning(HealthCheckPassed, spec, hub, order, states);
    if GateHolds(AllChangesApplied, spec, hub, states) && GateHolds(HealthCheckPassed, spec, hub, states) {
      DiagnosticGateHolds(g, spec, hub, states);
    }
  }

  lemma {:induction false} ResultAt(spec: WindowSpec, hub: bool, order: seq<string>, states: map<string, AppState>,
                                    prev: seq<GateResult>, now: Time, i: int)
    requires 0 <= i < |GATES|
    ensures var r := Results(spec, hub, order, states, prev, now)[i];
            && r.gate == GATES[i]
            && r.verdict == FinalVerdict(spec, hub, order, states, GATES[i])
            && (i == 5 ==> r.gate == AllChangesApplied) && (i == 6 ==> r.gate == HealthCheckPassed)
  {
    assert Results(spec, hub, order, states, prev, now)[i] == ResultFor(spec, hub, order, states, prev, now, GATES[i]);
  }

  predicate OthersTrue(rs: seq<GateResult>)
  {
    forall i :: 0 <= i < |rs| ==> Diagnostic(rs[i].gate) || rs[i].verdict.status == GateTrue
  }

  lemma {:induction false} EachGateTrue(spec: WindowSpec, hub: bool, order: seq<string>, states: map<string, AppState>,
                                        prev: seq<GateResult>, now: Time, i: int)
    requires Enumerates(order, states.Keys) && AllRows(states, row => RowGated(row)) && 0 <= i < |GATES|
    requires OthersTrue(Results(spec, hub, order, states, prev, now))
    ensures Results(spec, hub, order, states, prev, now)[i].verdict.status == GateTrue
  {
    ResultAt(spec, hub, order, states, prev, now, i);
    if Diagnostic(GATES[i]) {
      ResultAt(spec, hub, order, states, prev, now, 5);
      ResultAt(spec, hub, order, states, prev, now, 6);
      DiagnosticGatesFollow(GATES[i], spec, hub, order, states);
    }
  }

  /** The verdict of an evaluator without the three diagnostic gates. */
  predicate PassedWithoutDiagnostics(v: Validation, spec: WindowSpec, silent: seq<SilentCluster>)
  {
    OthersTrue(v.gateResults) && silent == [] && spec.impactedApps != []
  }

  /** Dropping the three gates never changes the verdict. */
  lemma {:induction false} DiagnosticGatesAreRedundant(spec: WindowSpec, hub: bool, order: seq<string>,
                                                       states: map<string, AppState>,
                                                       silent: seq<SilentCluster>, prev: seq<GateResult>, now: Time)
    requires Enumerates(order, states.Keys) && AllRows(states, row => RowGated(row))
    ensures var v := Evaluate(spec, hub, order, states, silent, prev, now);
            v.passed <==> PassedWithoutDiagnostics(v, spec, silent)
  {
    var rs := Results(spec, hub, order, states, prev, now);
    if OthersTrue(rs) {
      forall i | 0 <= i < |rs| ensures rs[i].verdict.status == GateTrue {
        EachGateTrue(spec, hub, order, states, prev, now, i);
      }
    }
  }
}
