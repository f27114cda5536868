/** The agent on one cluster: what it reports about an application, and when it adds diagnostics. */
module LocalReport {
  import opened Base
  import opened Model

  /** The application descriptor ConfigMap. */
  datatype Descriptor = Descriptor(appName: string, appNamespace: string, syncStatus: SyncStatus, health: Health,
      revision: string)

  /** What the agent finds when it looks at the cluster. */
  datatype Telemetry = Telemetry(
    observedAt: Time,
    pool: Pool,
    virt: Virt,
    platform: Platform,
    recentEvents: seq<EventSummary>,
    objectChanges: seq<ObjectChange>,
    dependencies: seq<Dependency>)

  predicate Troubled(sync: SyncStatus, health: Health)
  {
    sync.OutOfSync? || health.Degraded?
  }

  predicate HasDiagnostics(events: seq<EventSummary>, changes: seq<ObjectChange>, deps: seq<Dependency>)
  {
    events != [] || changes != [] || deps != []
  }

  /** Diagnostics accompany trouble only. */
  predicate Gated(rep: Report)
  {
    HasDiagnostics(rep.recentEvents, rep.objectChanges, rep.dependencies) ==> Troubled(rep.syncStatus, rep.health)
  }

  /**
   * The report tells what the descriptor says and what the agent found: diagnostics as collected when the application
   * is out of sync or degraded, and none otherwise.
   */
  predicate Tells(cluster: string, d: Descriptor, t: Telemetry, rep: Report)
  {
    && rep.clusterName == cluster && rep.appName == d.appName && rep.appNamespace == d.appNamespace
    && rep.observedRevision == d.revision && rep.syncStatus == d.syncStatus && rep.health == d.health
    && rep.observedAt == t.observedAt && rep.pool == t.pool && rep.virt == t.virt && rep.platform == t.platform
    && if d.syncStatus == OutOfSync || d.health == Degraded
       then rep.recentEvents == t.recentEvents && rep.objectChanges == t.objectChanges
            && rep.dependencies == t.dependencies
       else !HasDiagnostics(rep.recentEvents, rep.objectChanges, rep.dependencies)
  }

  /** No report is written for a descriptor that names no application. */
  function BuildReport(cluster: string, d: Descriptor, t: Telemetry): (r: Option<Report>)
    ensures r.Some? <==> d.appName != ""
    ensures r.Some? ==> Tells(cluster, d, t, r.value) && Gated(r.value)
  {
    if d.appName == "" then None
    else
      var quiet := Report(cluster, d.appName, d.appNamespace, d.revision, d.syncStatus, d.health, t.observedAt,
                          t.pool, t.virt, t.platform, [], [], []);
      Some(if Troubled(d.syncStatus, d.health)
           then quiet.(recentEvents := t.recentEvents, objectChanges := t.objectChanges, dependencies := t.dependencies)
           else quiet)
  }

  /** What is told is told completely: descriptor and telemetry leave no choice in the report. */
  lemma {:induction false} TellingIsUnique(cluster: string, d: Descriptor, t: Telemetry, rep: Report, other: Report)
    requires Tells(cluster, d, t, rep) && Tells(cluster, d, t, other)
    ensures rep == other
  {
  }

  /** The report as the agent assembles it, field by field. */
  method AssembleReport(cluster: string, d: Descriptor, t: Telemetry) returns (r: Option<Report>)
    ensures r == BuildReport(cluster, d, t)
  {
    if d.appName == "" {
      return None;
    }
    var spec := Report(cluster, d.appName, d.appNamespace, d.revision, d.syncStatus, d.health, t.observedAt,
                       NO_POOL, NO_VIRT, NO_PLATFORM, [], [], []);
    if spec.syncStatus == OutOfSync || spec.health == Degraded {
      spec := spec.(recentEvents := t.recentEvents);
      spec := spec.(objectChanges := t.objectChanges);
      spec := spec.(dependencies := t.dependencies);
    }
    spec := spec.(pool := t.pool);
    spec := spec.(virt := t.virt);
    spec := spec.(platform := t.platform);
    r := Some(spec);
  }
}
