/**
 * One reconcile of a change window, as a function of the stored status and of everything it reads.
 * `Reconcile` is the specification `WindowController` is proved against, and the step the run theorems iterate.
 */
module Window {
  import opened Base
  import opened Model
  import opened Evidence
  import G = Gates

  const TIMELINE_LIMIT := 50
  const HEARTBEAT_SECONDS := 900

  /** What reading the PropagationStatus of one impacted application came to. */
  datatype Fetch = Found(state: AppState) | Absent | Broken

  /**
   * Everything one reconcile reads: the clock, the fetches (one per impacted application), the orders in which
   * it happens to range over the application map, the cluster role, and whether publishing a report works.
   */
  datatype Inputs = Inputs(
    now: Time,
    signedAt: Time,
    fetched: seq<Fetch>,
    baselineOrder: seq<string>,
    silenceOrder: seq<string>,
    actionOrder: seq<string>,
    gateOrder: seq<string>,
    hub: bool,
    publishWorks: bool)

  /** A reconcile either gives up before writing, or yields the status to store. */
  datatype Outcome =
    | Aborted
    | Done(status: Status, attempted: bool, reported: bool, transition: Option<TimelineEntry>)

  // ----- fetching -----

  function Merge(apps: seq<string>, fetched: seq<Fetch>, states: map<string, AppState>): Option<map<string, AppState>>
    requires |apps| == |fetched|
  {
    if apps == [] then Some(states)
    else
      var n := |apps| - 1;
      match Merge(apps[..n], fetched[..n], states)
      case None => None
      case Some(m) =>
        match fetched[n]
        case Broken => None
        case Absent => Some(m)
        case Found(state) => Some(m[apps[n] := state])
  }

  // ----- silence -----

  function Classify(spec: WindowSpec, now: Time, p: G.Placed): Option<SilentCluster>
  {
    var row := p.row;
    var age := Sub(now, row.observedAt);
    if age <= OrDefault(spec.staleReportThresholdSeconds, 300) then None
    else
      var saw := row.sawReportSinceChgStart || row.observedAt >= spec.startTime;
      Some(SilentCluster(p.app, row.clusterName, if saw then WentSilentDuringChg else SilentBeforeChgStart,
          row.observedAt, age))
  }

  function SilentIn(spec: WindowSpec, now: Time, rows: seq<G.Placed>): seq<SilentCluster>
  {
    if rows == [] then []
    else
      var n := |rows| - 1;
      var c := Classify(spec, now, rows[n]);
      SilentIn(spec, now, rows[..n]) + (if c.Some? then [c.value] else [])
  }

  // ----- parked hard refresh -----

  function MaxAttempts(spec: WindowSpec): Int32 { OrDefault(spec.maxAttempts, 2) }

  function Wait(spec: WindowSpec): Int32 { OrDefault(spec.waitBetweenSeconds, 180) }

  predicate Refreshable(s: RowState) { s == Diverged || s == OutOfSyncRow }

  function ActionKey(app: string, cluster: string): string { app + "/" + cluster }

  function RunAction(spec: WindowSpec, now: Time, app: string, row: Row, actions: map<string,
                     ActionRecord>): map<string, ActionRecord>
  {
    var key := ActionKey(app, row.clusterName);
    var action := if key in actions then actions[key]
                  else ActionRecord(app, row.clusterName, 0, MaxAttempts(spec), ActionPending, ZERO_TIME, ZERO_TIME,
                      []);
    if row.state == InSync then
      actions[key := if action.attempts > 0 then action.(result := Resolved) else action]
    else if action.attempts >= MaxAttempts(spec) then
      actions[key := action.(result := ExhaustedRetries)]
    else if action.lastAttemptAt != ZERO_TIME && Sub(now, action.lastAttemptAt) < Wait(spec) then
      actions
    else
      actions[key := action.(attempts := action.attempts + 1,
                             lastAttemptAt := now,
                             nextEligibleAt := now + Wait(spec),
                             result := Parked,
                             history := action.history + [Attempt(action.attempts + 1, now)])]
  }

  function RunActions(spec: WindowSpec, now: Time, rows: seq<G.Placed>, actions: map<string,
                      ActionRecord>): map<string, ActionRecord>
  {
    if rows == [] then actions
    else
      var n := |rows| - 1;
      var rest := RunActions(spec, now, rows[..n], actions);
      if Refreshable(rows[n].row.state) then RunAction(spec, now, rows[n].app, rows[n].row, rest) else rest
  }

  // ----- baseline -----

  function Newer(seen: string, kept: string): string { if seen != "" then seen else kept }

  function Absorb(env: Env, b: Baseline, po: Platform): Baseline
  {
    b.(clusterVersion := Newer(po.clusterVersion.version, b.clusterVersion),
       kubeVirtVersion := Newer(po.kubeVirt.observedVersion, b.kubeVirtVersion),
       cdiVersion := Newer(po.cdi.observedVersion, b.cdiVersion),
       sspVersion := Newer(po.ssp.observedVersion, b.sspVersion),
       clusterOperatorDigest := if po.operators != [] then env.operatorDigest(po.operators)
           else b.clusterOperatorDigest,
       machineConfigPoolHash := if po.pools != [] then env.poolDigest(po.pools) else b.machineConfigPoolHash)
  }

  /** Rows are absorbed up to and including the first one that makes a platform version known. */
  function CaptureFrom(env: Env, b: Baseline, rows: seq<G.Placed>): Baseline
    decreases |rows|
  {
    if rows == [] then b
    else
      var b' := Absorb(env, b, rows[0].row.platform);
      if b'.clusterVersion != "" || b'.kubeVirtVersion != "" then b' else CaptureFrom(env, b', rows[1..])
  }

  function Capture(env: Env, rows: seq<G.Placed>, now: Time): Baseline
  {
    CaptureFrom(env, Baseline(now, "", "", "", "", "", ""), rows)
  }

  // ----- phase -----

  function Stabilization(spec: WindowSpec): Int32 { OrDefault(spec.stabilizationPeriodSeconds, 0) }

  datatype Decision = Decision(phase: Phase, overall: Overall, stabilizationStartedAt: Option<Time>)

  function Decide(spec: WindowSpec, now: Time, previous: Phase, passed: bool, started: Option<Time>): Decision
  {
    if passed then
      if Stabilization(spec) > 0 then
        var since := if started.None? then now else started.value;
        if now < since + Stabilization(spec) then Decision(PlatformRecovering, InProgress, Some(since))
        else Decision(Succeeded, Good, Some(since))
      else Decision(Succeeded, Good, started)
    else if now > spec.endTime then Decision(TimedOut, DegradedWindow, None)
    else if previous in {Scheduled, BaselineCaptured, PendingPhase, PhaseUnset}
        then Decision(WaitingForChange, InProgress, None)
    else Decision(Executing, InProgress, None)
  }

  predicate Concluding(p: Phase) { p == Succeeded || p == Failed || p == TimedOut }

  function SigningKey(spec: WindowSpec): string
  {
    if spec.chgNumber == "" then "chg-signing-key-default" else spec.chgNumber
  }

  function Sign(env: Env, spec: WindowSpec, baseline: Option<Baseline>, gates: seq<GateResult>, phase: Phase,
                signedAt: Time): SignedReport
  {
    var digest := if baseline.Some? then baseline.value.clusterOperatorDigest else "baseline-digest-none";
    Generate(env, spec.chgNumber, digest, gates, phase, SigningKey(spec), signedAt)
  }

  function Extend(timeline: seq<TimelineEntry>, e: TimelineEntry): seq<TimelineEntry>
  {
    LastN(timeline + [e], TIMELINE_LIMIT)
  }

  predicate HeartbeatDue(last: Time, now: Time)
  {
    last != ZERO_TIME && Sub(now, last) >= HEARTBEAT_SECONDS
  }

  // ----- the step -----

  /** What a reconcile of the open window observes before it decides anything. */
  datatype Observation = Observation(baseline: Baseline, silent: seq<SilentCluster>, actions: map<string, ActionRecord>,
                                     validation: Validation, previous: Phase)

  function Observe(env: Env, spec: WindowSpec, st: Status, states: map<string, AppState>, inp: Inputs): Observation
  {
    var now := inp.now;
    var silent := SilentIn(spec, now, G.Flatten(inp.silenceOrder, states));
    Observation(
      if st.baseline.None? then Capture(env, G.Flatten(inp.baselineOrder, states), now) else st.baseline.value,
      silent,
      RunActions(spec, now, G.Flatten(inp.actionOrder, states), st.actions),
      G.Evaluate(spec, inp.hub, inp.gateOrder, states, silent, st.validation.gateResults, now),
      if st.baseline.None? then BaselineCaptured else st.phase)
  }

  /** Take over what was observed. */
  function Adopt(st: Status, obs: Observation): Status
  {
    st.(phase := obs.previous, silent := obs.silent, actions := obs.actions, validation := obs.validation,
        baseline := Some(obs.baseline))
  }

  /** Decide the phase; a concluding phase gets a signed report. */
  function Conclude(env: Env, spec: WindowSpec, st: Status, inp: Inputs): Status
  {
    var d := Decide(spec, inp.now, st.phase, st.validation.passed, st.stabilizationStartedAt);
    st.(phase := d.phase, overall := d.overall, stabilizationStartedAt := d.stabilizationStartedAt,
        signedReport := if Concluding(d.phase)
            then Some(Sign(env, spec, st.baseline, st.validation.gateResults, d.phase, inp.signedAt))
                        else st.signedReport)
  }

  /** Record a phase change in the timeline; report on any change, or when the heartbeat is due. */
  function Announce(st: Status, inp: Inputs, before: Validation, previous: Phase): Outcome
  {
    var moved := st.phase != previous;
    var entry := TimelineEntry(inp.now, previous, st.phase);
    var attempted := moved || before != st.validation || HeartbeatDue(st.lastReportedAt, inp.now);
    var reported := attempted && inp.publishWorks;
    Done(st.(lastReportedAt := if reported then inp.now else st.lastReportedAt,
             timeline := if moved then Extend(st.timeline, entry) else st.timeline),
         attempted, reported, if moved then Some(entry) else None)
  }

  /** The part that follows the observation: phase, signature, timeline and report. */
  function Settle(env: Env, spec: WindowSpec, st: Status, inp: Inputs, obs: Observation): Outcome
  {
    Announce(Conclude(env, spec, Adopt(st, obs), inp), inp, st.validation, obs.previous)
  }

  /** The part of a reconcile that follows the fetches, once the window has started. */
  function Proceed(env: Env, spec: WindowSpec, st: Status, states: map<string, AppState>, inp: Inputs): Outcome
  {
    Settle(env, spec, st.(appStates := states), inp, Observe(env, spec, st, states, inp))
  }

  function Reconcile(env: Env, spec: WindowSpec, st: Status, inp: Inputs): Outcome
    requires |inp.fetched| == |spec.impactedApps|
  {
    if inp.now < spec.startTime then
      Done(st.(phase := Scheduled, overall := Pending), false, false, None)
    else
      match Merge(spec.impactedApps, inp.fetched, st.appStates)
      case None => Aborted
      case Some(states) => Proceed(env, spec, st, states, inp)
  }

  /** A reconciler as a value: the theorems about runs do not care what is inside. */
  type Stepper = (Status, Inputs) -> Outcome

  /** Reads that are not one fetch per impacted application do not occur. */
  function StepperOf(env: Env, spec: WindowSpec): Stepper
  {
    (st: Status, inp: Inputs) => if |inp.fetched| == |spec.impactedApps| then Reconcile(env, spec, st, inp) else Aborted
  }
}
