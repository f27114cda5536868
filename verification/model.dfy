/**
 * The records the controllers exchange: agent reports, aggregated rows and validation gates.
 * Status words that the code only ever compares are enumerations; `Other...` keeps any further text.
 */
module Model {
  import opened Base

  // ----- telemetry -----

  datatype SyncStatus = SyncUnset | Synced | OutOfSync | SyncUnknown | OtherSync(text: string)

  datatype Health = HealthUnset | Healthy | Progressing | Degraded | HealthUnknown | OtherHealth(text: string)

  datatype PoolPhase = PoolUnset | PoolUpdated | PoolUpdating | PoolDegraded | PoolUnknown | OtherPool(text: string)

  datatype Pool = Pool(
    name: string,
    machineCount: Int32,
    readyMachineCount: Int32,
    updatingNodeCount: Int32,
    unavailableNodeCount: Int32,
    degradedNodeCount: Int32,
    currentRenderedConfig: string,
    desiredRenderedConfig: string,
    phase: PoolPhase)

  datatype HyperConverged = HcoUnset | HcoHealthy | HcoDegraded | HcoUnknown

  datatype Virt = Virt(
    hyperConverged: HyperConverged,
    virtHandlerReady: bool,
    stalledMigrations: Int32,
    unmigratableVMIs: Int32)

  datatype Operator = Operator(name: string, available: bool, degraded: bool, version: string)

  datatype ClusterVersion = ClusterVersion(version: string, desiredVersion: string, progressing: bool, available: bool)

  /** KubeVirt, CDI or SSP. */
  datatype VirtOperator = VirtOperator(phase: string, observedVersion: string, ready: bool)

  datatype Platform = Platform(
    operators: seq<Operator>,
    pools: seq<Pool>,
    virtHealth: Virt,
    clusterVersion: ClusterVersion,
    kubeVirt: VirtOperator,
    cdi: VirtOperator,
    ssp: VirtOperator,
    activeMaintenanceNodes: Int32)

  datatype EventSummary = EventSummary(
    reason: string, message: string, count: Int32, lastObservedAt: Time, involvedObject: string)

  datatype ObjectChange = ObjectChange(kind: string, name: string, changeType: string, changedFields: seq<string>)

  datatype Dependency = Dependency(kind: string, name: string, ready: bool, note: string)

  /** What the agent on one cluster writes about one application. */
  datatype Report = Report(
    clusterName: string,
    appName: string,
    appNamespace: string,
    observedRevision: string,
    syncStatus: SyncStatus,
    health: Health,
    observedAt: Time,
    pool: Pool,
    virt: Virt,
    platform: Platform,
    recentEvents: seq<EventSummary>,
    objectChanges: seq<ObjectChange>,
    dependencies: seq<Dependency>)

  const NO_POOL := Pool("", 0, 0, 0, 0, 0, "", "", PoolUnset)
  const NO_VIRT := Virt(HcoUnset, false, 0, 0)
  const NO_VIRT_OPERATOR := VirtOperator("", "", false)
  const NO_PLATFORM := Platform([], [], NO_VIRT, ClusterVersion("", "", false, false),
                                NO_VIRT_OPERATOR, NO_VIRT_OPERATOR, NO_VIRT_OPERATOR, 0)

  // ----- aggregation -----

  datatype RowState =
    | InSync
    | Propagating
    | Lagging
    | Diverged
    | Stale
    | Missing
    | OutOfSyncRow
    | OtherRow(text: string)

  /** One target cluster of one application, as the aggregator publishes it. */
  datatype Row = Row(
    clusterName: string,
    appNamespace: string,
    observedRevision: string,
    syncStatus: SyncStatus,
    health: Health,
    observedAt: Time,
    sawReportSinceChgStart: bool,
    pool: Pool,
    virt: Virt,
    platform: Platform,
    state: RowState,
    recentEvents: seq<EventSummary>,
    objectChanges: seq<ObjectChange>,
    dependencies: seq<Dependency>)

  datatype FleetPhase = FleetUnset | FleetDiverged | FleetStale | FleetPropagating | FleetSynced

  datatype AppState = AppState(phase: FleetPhase, rows: seq<Row>)

  // ----- validation -----

  datatype Gate =
    | ClusterVersionStable
    | ClusterOperatorsHealthy
    | PlatformOperatorsDeployed
    | MCPUpdatedOnTime
    | NoActiveNodeMaintenance
    | AllChangesApplied
    | HealthCheckPassed
    | EventsClean
    | ObjectsConverged
    | DependenciesReady
    | VirtImpactPassed

  /** The order in which a validation result lists its gates. */
  const GATES: seq<Gate> := [
    ClusterVersionStable, ClusterOperatorsHealthy, PlatformOperatorsDeployed, MCPUpdatedOnTime,
    NoActiveNodeMaintenance, AllChangesApplied, HealthCheckPassed, EventsClean, ObjectsConverged,
    DependenciesReady, VirtImpactPassed]

  datatype GateStatus = GateTrue | GateFalse | GateUnknown

  /** What a gate says: its tri-state, its reason and the values its message interpolates. */
  datatype Verdict = Verdict(status: GateStatus, reason: string, words: seq<string>, numbers: seq<int>)

  datatype GateResult = GateResult(gate: Gate, verdict: Verdict, observedAt: Time)

  datatype Issue = Issue(app: string, cluster: string, topic: string, words: seq<string>, numbers: seq<int>)

  datatype Validation = Validation(gateResults: seq<GateResult>, issues: seq<Issue>, passed: bool)

  datatype Silence = SilentBeforeChgStart | WentSilentDuringChg

  datatype SilentCluster = SilentCluster(app: string, cluster: string, silence: Silence, lastSeenAt: Time,
      silentForSeconds: int)

  // ----- change window -----

  datatype WindowSpec = WindowSpec(
    chgNumber: string,
    impactedApps: seq<string>,
    startTime: Time,
    endTime: Time,
    stabilizationPeriodSeconds: Int32,
    staleReportThresholdSeconds: Int32,
    maxAttempts: Int32,
    waitBetweenSeconds: Int32)

  datatype Phase =
    | PhaseUnset
    | PendingPhase
    | Scheduled
    | BaselineCaptured
    | WaitingForChange
    | Executing
    | PlatformRecovering
    | ValidationRunning
    | Succeeded
    | Failed
    | TimedOut

  datatype Overall = OverallUnset | Pending | InProgress | Good | DegradedWindow

  datatype Attempt = Attempt(number: Int32, triggeredAt: Time)

  datatype ActionResult = ActionPending | Parked | Resolved | ExhaustedRetries

  datatype ActionRecord = ActionRecord(
    app: string,
    cluster: string,
    attempts: Int32,
    maxAttempts: Int32,
    result: ActionResult,
    lastAttemptAt: Time,
    nextEligibleAt: Time,
    history: seq<Attempt>)

  datatype Baseline = Baseline(
    capturedAt: Time,
    clusterVersion: string,
    kubeVirtVersion: string,
    cdiVersion: string,
    sspVersion: string,
    clusterOperatorDigest: string,
    machineConfigPoolHash: string)

  /** A phase transition; the source renders `from` and `stage` into the entry's description. */
  datatype TimelineEntry = TimelineEntry(timestamp: Time, from: Phase, stage: Phase)

  datatype SignedReport = SignedReport(
    reportId: string,
    windowId: string,
    timestamp: Time,
    baselineDigest: string,
    checksum: string,
    signature: string,
    overallResult: Phase,
    gateResults: seq<GateResult>)

  datatype Status = Status(
    phase: Phase,
    overall: Overall,
    silent: seq<SilentCluster>,
    actions: map<string, ActionRecord>,
    validation: Validation,
    stabilizationStartedAt: Option<Time>,
    lastReportedAt: Time,
    appStates: map<string, AppState>,
    baseline: Option<Baseline>,
    signedReport: Option<SignedReport>,
    timeline: seq<TimelineEntry>)

  /** The status of a window nobody has reconciled yet. */
  const NEW_STATUS := Status(PhaseUnset, OverallUnset, [], map[], Validation([], [], false), None, ZERO_TIME,
                             map[], None, None, [])
}
