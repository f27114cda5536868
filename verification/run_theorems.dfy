/** Stabilization, timeline and phases over whole runs of the change-window reconciler. */
module RunTheorems {
  import opened Base
  import opened Model
  import opened Evidence
  import opened Window
  import opened Runs

  // ----- stabilization -----

  predicate PassedAt(h: seq<Step>, i: nat)
    requires i < |h|
  {
    h[i].after.validation.passed
  }

  /** The first step of the unbroken run of passing steps that ends at step `n`. */
  function BlockStart(h: seq<Step>, n: nat): (k: nat)
    requires n < |h| && PassedAt(h, n)
    ensures k <= n
    ensures forall j :: k <= j <= n ==> PassedAt(h, j)
    ensures k == 0 || !PassedAt(h, k - 1)
  {
    if n == 0 || !PassedAt(h, n - 1) then n else BlockStart(h, n - 1)
  }

  /** The stabilization clock shows when the current unbroken passing block began, and nothing when there is none. */
  lemma {:induction false} StabilizationClock(env: Env, spec: WindowSpec, h: seq<Step>, n: nat)
    requires IsHistory(env, spec, h) && n < |h|
    requires Stabilization(spec) > 0
    ensures h[n].after.stabilizationStartedAt
         == if PassedAt(h, n) then Some(h[BlockStart(h, n)].inputs.now) else None
  {
    Shapes(env, spec, h);
    assert Shape(env, spec, Before(h, n), h[n]);
    if n > 0 {
      StabilizationClock(env, spec, h, n - 1);
    }
  }

  /** A stored step concludes Succeeded exactly when every stored step for at least the period has passed. */
  lemma {:induction false} SucceededMeansStable(env: Env, spec: WindowSpec, h: seq<Step>, n: nat)
    requires IsHistory(env, spec, h) && n < |h|
    ensures h[n].after.phase == Succeeded
       <==> PassedAt(h, n) && h[n].inputs.now - h[BlockStart(h, n)].inputs.now >= Stabilization(spec)
  {
    Shapes(env, spec, h);
    assert Shape(env, spec, Before(h, n), h[n]);
    if PassedAt(h, n) {
      ClockRuns(env, spec, h, BlockStart(h, n), n);
      if Stabilization(spec) > 0 {
        StabilizationClock(env, spec, h, n);
        if n > 0 {
          StabilizationClock(env, spec, h, n - 1);
        }
      }
    }
  }

  /** The steps that end the unbroken passing block at step `n` span the stabilization period. */
  predicate Stable(spec: WindowSpec, h: seq<Step>, n: nat)
    requires n < |h|
  {
    var period := if spec.stabilizationPeriodSeconds > 0 then spec.stabilizationPeriodSeconds else 0;
    PassedAt(h, n) && h[n].inputs.now - h[BlockStart(h, n)].inputs.now >= period
  }

  /** What is decided, when Succeeded is decided exactly if the block is long enough. */
  lemma {:induction false} DecisionMeaning(spec: WindowSpec, now: Time, previous: Phase, passed: bool,
                                           started: Option<Time>, stable: bool)
    requires Decide(spec, now, previous, passed, started).phase == Succeeded <==> stable
    requires previous == BaselineCaptured || OpenPhase(previous)
    ensures var d, late := Decide(spec, now, previous, passed, started), now > spec.endTime;
            && (d.phase == PlatformRecovering <==> passed && !stable)
            && (d.phase == TimedOut <==> !passed && late)
            && (d.phase == WaitingForChange <==> !passed && !late && previous == BaselineCaptured)
            && (d.phase == Executing <==> !passed && !late && previous != BaselineCaptured)
            && (d.overall == Good <==> stable)
            && (d.overall == DegradedWindow <==> !passed && late)
            && (d.overall == InProgress <==> !stable && (passed || !late))
  {
  }

  /** What a stored step decides, from the phase the step before it left. */
  lemma {:induction false} StepDecides(env: Env, spec: WindowSpec, h: seq<Step>, n: nat)
    requires IsHistory(env, spec, h) && n < |h|
    ensures var d := Decide(spec, h[n].inputs.now, Source(h, n), PassedAt(h, n), h[n].before.stabilizationStartedAt);
            h[n].after.phase == d.phase && h[n].after.overall == d.overall
    ensures if n == 0 then Source(h, n) == BaselineCaptured else OpenPhase(Source(h, n))
  {
    Shapes(env, spec, h);
    assert Shape(env, spec, Before(h, n), h[n]);
    PhasesOfStoredSteps(env, spec, h, n);
    if n > 0 {
      PhasesOfStoredSteps(env, spec, h, n - 1);
    }
  }

  /**
   * Phase and overall status of every stored step, both ways. Passing: Succeeded and Good once the block spans the
   * period, PlatformRecovering and InProgress until then. Not passing: TimedOut and Degraded past the end; before it
   * InProgress, and WaitingForChange in the very first stored step, Executing in every later one.
   */
  lemma {:induction false} PhaseAndOverall(env: Env, spec: WindowSpec, h: seq<Step>, n: nat)
    requires IsHistory(env, spec, h) && n < |h|
    ensures var st, late := h[n].after, h[n].inputs.now > spec.endTime;
            && (st.phase == Succeeded <==> Stable(spec, h, n))
            && (st.phase == PlatformRecovering <==> PassedAt(h, n) && !Stable(spec, h, n))
            && (st.phase == TimedOut <==> !PassedAt(h, n) && late)
            && (st.phase == WaitingForChange <==> !PassedAt(h, n) && !late && n == 0)
            && (st.phase == Executing <==> !PassedAt(h, n) && !late && n > 0)
            && (st.overall == Good <==> Stable(spec, h, n))
            && (st.overall == DegradedWindow <==> !PassedAt(h, n) && late)
            && (st.overall == InProgress <==> !Stable(spec, h, n) && (PassedAt(h, n) || !late))
  {
    SucceededMeansStable(env, spec, h, n);
    StepDecides(env, spec, h, n);
    DecisionMeaning(spec, h[n].inputs.now, Source(h, n), PassedAt(h, n), h[n].before.stabilizationStartedAt,
                    Stable(spec, h, n));
  }

  /** The same for any run: a stored Succeeded is backed by an unbroken block of stored passing steps, from `k` on. */
  lemma {:induction false} StoredSuccessIsBacked(env: Env, spec: WindowSpec, evs: seq<Event>, h: seq<Step>, st: Status)
    returns (k: nat)
    requires WellFormed(spec, evs) && h == History(env, spec, evs) && st == After(env, spec, evs)
    requires st.phase == Succeeded
    ensures k < |h| && st == h[|h| - 1].after
    ensures forall j :: k <= j < |h| ==> PassedAt(h, j)
    ensures h[|h| - 1].inputs.now - h[k].inputs.now >= Stabilization(spec)
    ensures Stabilization(spec) > 0 ==> st.stabilizationStartedAt == Some(h[k].inputs.now)
  {
    RunsAreHistories(env, spec, evs);
    var n := |h| - 1;
    SucceededMeansStable(env, spec, h, n);
    k := BlockStart(h, n);
    if Stabilization(spec) > 0 {
      StabilizationClock(env, spec, h, n);
    }
  }

  // ----- timeline -----

  /** Every phase transition of the run, none forgotten. */
  function Log(h: seq<Step>): seq<TimelineEntry>
  {
    if h == [] then []
    else
      var n := |h| - 1;
      Log(h[..n]) + (if h[n].transition.Some? then [h[n].transition.value] else [])
  }

  ghost predicate Coherent(log: seq<TimelineEntry>)
  {
    && (log != [] ==> log[0].from == BaselineCaptured)
    && (forall i :: 0 <= i < |log| ==> log[i].from != log[i].stage)
    && (forall i :: 0 < i < |log| ==> log[i].from == log[i - 1].stage && log[i - 1].timestamp <= log[i].timestamp)
  }

  lemma {:induction false} CoherentGrows(log: seq<TimelineEntry>, e: TimelineEntry)
    requires Coherent(log) && e.from != e.stage
    requires if log == [] then e.from == BaselineCaptured else
        e.from == log[|log| - 1].stage
        && log[|log| - 1].timestamp <= e.timestamp
    ensures Coherent(log + [e])
  {
  }

  /** The log is one gapless chain that leads to what step `s` stored. */
  ghost predicate LeadsTo(log: seq<TimelineEntry>, s: Step)
  {
    Coherent(log) && log != [] && log[|log| - 1].stage == s.after.phase && log[|log| - 1].timestamp <= s.inputs.now
  }

  /** What a step adds to the log, when it starts from phase `from`. */
  ghost predicate MovesFrom(s: Step, from: Phase)
  {
    s.transition == if s.after.phase != from then Some(TimelineEntry(s.inputs.now, from, s.after.phase)) else None
  }

  lemma {:induction false} LogLeadsOn(log: seq<TimelineEntry>, p: Step, s: Step)
    requires LeadsTo(log, p) && MovesFrom(s, p.after.phase) && p.inputs.now <= s.inputs.now
    ensures LeadsTo(log + (if s.transition.Some? then [s.transition.value] else []), s)
  {
    if s.transition.Some? {
      CoherentGrows(log, s.transition.value);
    } else {
      assert log + [] == log;
    }
  }

  lemma {:induction false} LogStarts(s: Step)
    requires MovesFrom(s, BaselineCaptured) && s.transition.Some?
    ensures LeadsTo([] + [s.transition.value], s)
  {
    CoherentGrows([], s.transition.value);
  }

  lemma {:induction false} LogIsChain(env: Env, spec: WindowSpec, h: seq<Step>)
    requires IsHistory(env, spec, h) && h != []
    ensures LeadsTo(Log(h), h[|h| - 1])
  {
    var n := |h| - 1;
    TransitionFacts(env, spec, h, n);
    if n > 0 {
      Prefix(env, spec, h, n);
      LogIsChain(env, spec, h[..n]);
      assert h[..n][n - 1] == h[n - 1];
      LogLeadsOn(Log(h[..n]), h[n - 1], h[n]);
    } else {
      assert h[..0] == [];
      LogStarts(h[0]);
    }
  }

  lemma {:induction false} TimelineIsSuffix(env: Env, spec: WindowSpec, h: seq<Step>)
    requires IsHistory(env, spec, h) && h != []
    ensures h[|h| - 1].after.timeline == LastN(Log(h), TIMELINE_LIMIT)
  {
    var n := |h| - 1;
    TimelineFacts(env, spec, h, n);
    if n > 0 {
      Prefix(env, spec, h, n);
      TimelineIsSuffix(env, spec, h[..n]);
      assert h[..n][n - 1] == h[n - 1];
      if h[n].transition.Some? {
        LastNAppend(Log(h[..n]), TIMELINE_LIMIT, h[n].transition.value);
      }
    } else {
      assert h[..0] == [];
    }
  }

  /** The stored timeline is the end of the full log, and the log is one gapless chain of transitions. */
  lemma {:induction false} TimelineIsLogSuffix(env: Env, spec: WindowSpec, evs: seq<Event>, h: seq<Step>, st: Status)
    requires WellFormed(spec, evs) && h == History(env, spec, evs) && st == After(env, spec, evs)
    ensures st.timeline == LastN(Log(h), 50)
    ensures Coherent(Log(h))
    ensures h != [] ==> Log(h) != [] && Log(h)[|Log(h)| - 1].stage == st.phase
  {
    RunsAreHistories(env, spec, evs);
    if h != [] {
      LogIsChain(env, spec, h);
      TimelineIsSuffix(env, spec, h);
    }
  }

  // ----- phases -----

  /** The only phases a stored step can leave behind. */
  predicate OpenPhase(p: Phase)
  {
    p in {WaitingForChange, Executing, PlatformRecovering, Succeeded, TimedOut}
  }

  lemma {:induction false} PhasesOfStoredSteps(env: Env, spec: WindowSpec, h: seq<Step>, n: nat)
    requires IsHistory(env, spec, h) && n < |h|
    ensures OpenPhase(h[n].after.phase)
    ensures h[n].inputs.now > spec.endTime ==> h[n].after.phase in {PlatformRecovering, Succeeded, TimedOut}
    ensures h[n].after.phase == WaitingForChange ==> n == 0
    ensures h[n].before.baseline.None? <==> n == 0
    ensures h[n].after.baseline == h[0].after.baseline && h[n].after.baseline.Some?
    decreases n
  {
    Shapes(env, spec, h);
    assert Shape(env, spec, Before(h, n), h[n]);
    if n > 0 {
      PhasesOfStoredSteps(env, spec, h, n - 1);
    }
  }

  /** The two phases a stored step can conclude the window with. */
  predicate Concluded(p: Phase) { p.Succeeded? || p.TimedOut? }

  /** The key a report is signed with: the number of the change, if it has one. */
  function KeyOf(spec: WindowSpec): string
  {
    if spec.chgNumber != "" then spec.chgNumber else "chg-signing-key-default"
  }

  /** The report of step `n`: what that step concluded, with its gates and the baseline of the window. */
  ghost predicate ReportsOn(env: Env, spec: WindowSpec, h: seq<Step>, n: nat, r: SignedReport)
    requires n < |h|
  {
    && Verify(env, r, KeyOf(spec)) && Intact(env, r)
    && r.overallResult == h[n].after.phase && r.gateResults == h[n].after.validation.gateResults
    && r.windowId == spec.chgNumber && r.timestamp == h[n].inputs.signedAt
    && h[0].after.baseline.Some? && r.baselineDigest == h[0].after.baseline.value.clusterOperatorDigest
  }

  /** A concluded window carries a report for that conclusion and those gates, and the report verifies. */
  lemma {:induction false} ConclusionsAreSigned(env: Env, spec: WindowSpec, h: seq<Step>, n: nat)
    requires IsHistory(env, spec, h) && n < |h| && Concluded(h[n].after.phase)
    ensures h[n].after.signedReport.Some? && ReportsOn(env, spec, h, n, h[n].after.signedReport.value)
  {
    Shapes(env, spec, h);
    assert Shape(env, spec, Before(h, n), h[n]);
    PhasesOfStoredSteps(env, spec, h, n);
    var st := h[n].after;
    GeneratedVerifies(env, spec.chgNumber, st.baseline.value.clusterOperatorDigest, st.validation.gateResults, st.phase,
                      KeyOf(spec), h[n].inputs.signedAt);
  }

  /** The last of the first `n` steps that concluded. */
  function LastConclusion(h: seq<Step>, n: nat): (k: Option<nat>)
    requires n <= |h|
    ensures k.Some? ==> k.value < n && Concluded(h[k.value].after.phase)
    ensures forall j :: (if k.None? then 0 else k.value + 1) <= j < n ==> !Concluded(h[j].after.phase)
  {
    if n == 0 then None else if Concluded(h[n - 1].after.phase) then Some(n - 1) else LastConclusion(h, n - 1)
  }

  lemma {:induction false} ReportStays(env: Env, spec: WindowSpec, h: seq<Step>, n: nat)
    requires IsHistory(env, spec, h) && n < |h| && !Concluded(h[n].after.phase)
    ensures h[n].after.signedReport == if n == 0 then None else h[n - 1].after.signedReport
  {
    Shapes(env, spec, h);
    assert Shape(env, spec, Before(h, n), h[n]);
    PhasesOfStoredSteps(env, spec, h, n);
  }

  /**
   * The signed report of every stored step is that of the last step that concluded, which may have been overtaken by
   * steps that did not; as long as none has, there is no report.
   */
  lemma {:induction false} SignedReportMeaning(env: Env, spec: WindowSpec, h: seq<Step>, n: nat)
    requires IsHistory(env, spec, h) && n < |h|
    ensures var k, report := LastConclusion(h, n + 1), h[n].after.signedReport;
            if k.None? then report.None? else report.Some? && ReportsOn(env, spec, h, k.value, report.value)
  {
    if Concluded(h[n].after.phase) {
      ConclusionsAreSigned(env, spec, h, n);
    } else {
      ReportStays(env, spec, h, n);
      if n > 0 {
        SignedReportMeaning(env, spec, h, n - 1);
      }
    }
  }

  ghost predicate SignedConclusion(env: Env, spec: WindowSpec, st: Status)
  {
    Concluded(st.phase) ==>
      && st.signedReport.Some? && Verify(env, st.signedReport.value, KeyOf(spec))
      && st.signedReport.value.overallResult == st.phase
      && st.signedReport.value.gateResults == st.validation.gateResults
  }

  lemma {:induction false} LastStepIsSigned(env: Env, spec: WindowSpec, h: seq<Step>)
    requires IsHistory(env, spec, h) && h != []
    ensures OpenPhase(h[|h| - 1].after.phase) && h[|h| - 1].after.baseline.Some?
    ensures SignedConclusion(env, spec, h[|h| - 1].after)
  {
    PhasesOfStoredSteps(env, spec, h, |h| - 1);
    if Concluded(h[|h| - 1].after.phase) {
      ConclusionsAreSigned(env, spec, h, |h| - 1);
    }
  }

  /**
   * Over any run: six phases besides the empty one. WaitingForChange is the phase of the very first stored step only,
   * the one that captures the baseline. If the last stored step came after the end, only three phases are left. Every
   * stored conclusion is signed.
   */
  lemma {:induction false} PhasesOfRuns(env: Env, spec: WindowSpec, evs: seq<Event>, st: Status)
    requires WellFormed(spec, evs) && st == After(env, spec, evs)
    ensures st.phase in {PhaseUnset, Scheduled} || OpenPhase(st.phase)
    ensures var h := History(env, spec, evs);
            && (st.baseline.None? <==> h == [])
            && (st.phase == WaitingForChange ==> |h| == 1)
            && (h != [] && h[|h| - 1].inputs.now > spec.endTime
               ==> st.phase in {PlatformRecovering, Succeeded, TimedOut})
    ensures SignedConclusion(env, spec, st)
  {
    RunsAreHistories(env, spec, evs);
    PhasesOfStored(env, spec, evs, History(env, spec, evs), st);
  }

  lemma {:induction false} PhasesOfStored(env: Env, spec: WindowSpec, evs: seq<Event>, h: seq<Step>, st: Status)
    requires Reflects(env, spec, evs, h, st)
    ensures st.phase in {PhaseUnset, Scheduled} || OpenPhase(st.phase)
    ensures st.baseline.None? <==> h == []
    ensures st.phase == WaitingForChange ==> |h| == 1
    ensures h != [] && h[|h| - 1].inputs.now > spec.endTime ==> st.phase in {PlatformRecovering, Succeeded, TimedOut}
    ensures SignedConclusion(env, spec, st)
  {
    if h != [] {
      LastStepIsSigned(env, spec, h);
      PhasesOfStoredSteps(env, spec, h, |h| - 1);
    }
  }

  lemma {:induction false} EarlyIsNoted(env: Env, spec: WindowSpec, evs: seq<Event>)
    requires WellFormed(spec, evs)
    ensures NotesEarly(StepperOf(env, spec), spec.startTime, evs)
  {
  }

  /**
   * Over any run, what is stored: nothing yet, the waiting, or phase and overall status as the last stored step of the
   * open window calls for.
   */
  lemma {:induction false} StoredPhaseAndOverall(env: Env, spec: WindowSpec, evs: seq<Event>, h: seq<Step>, st: Status)
    requires WellFormed(spec, evs) && h == History(env, spec, evs) && st == After(env, spec, evs)
    ensures h == [] ==>
              (st.phase, st.overall)
              == if NotedWaiting(spec.startTime, evs) then (Scheduled, Pending) else (PhaseUnset, OverallUnset)
    ensures h != [] ==>
              var n := |h| - 1;
              var stable, passed, late := Stable(spec, h, n), PassedAt(h, n), h[n].inputs.now > spec.endTime;
              (st.phase, st.overall)
              == if stable then (Succeeded, Good)
                 else if passed then (PlatformRecovering, InProgress)
                 else if late then (TimedOut, DegradedWindow)
                 else (if n == 0 then WaitingForChange else Executing, InProgress)
  {
    RunsAreHistories(env, spec, evs);
    if h == [] {
      ReconcilerWaits(env, spec);
      EarlyIsNoted(env, spec, evs);
      WaitingStatus(StepperOf(env, spec), spec.startTime, evs);
    } else {
      PhaseAndOverall(env, spec, h, |h| - 1);
    }
  }

  lemma {:induction false} BaselineOfHistory(env: Env, spec: WindowSpec, h: seq<Step>, n: nat)
    requires IsHistory(env, spec, h) && n < |h|
    ensures h[|h| - 1].after.baseline == h[n].after.baseline
  {
    PhasesOfStoredSteps(env, spec, h, n);
    PhasesOfStoredSteps(env, spec, h, |h| - 1);
  }

  /** A baseline, once stored, is never replaced later in the run. */
  lemma {:induction false} BaselineStays(env: Env, spec: WindowSpec, evs: seq<Event>, m: nat)
    requires WellFormed(spec, evs) && m <= |evs| && After(env, spec, evs[..m]).baseline.Some?
    ensures After(env, spec, evs).baseline == After(env, spec, evs[..m]).baseline
  {
    var g, h := History(env, spec, evs[..m]), History(env, spec, evs);
    RunsAreHistories(env, spec, evs[..m]);
    RunsAreHistories(env, spec, evs);
    HistoryOfPrefix(StepperOf(env, spec), spec.startTime, evs, m);
    StoredBaselines(evs[..m], g, After(env, spec, evs[..m]), evs, h, After(env, spec, evs));
    BaselineOfHistory(env, spec, h, |g| - 1);
  }

  /** Two stored statuses, the first with a baseline, by the last steps of their histories. */
  lemma {:induction false} StoredBaselines(evs: seq<Event>, g: seq<Step>, st: Status, more: seq<Event>, h: seq<Step>,
                                           later: Status)
    requires StoredLast(evs, g, st) && StoredLast(more, h, later) && g <= h && st.baseline.Some?
    ensures g != [] && st.baseline == h[|g| - 1].after.baseline && later.baseline == h[|h| - 1].after.baseline
  {
    if g != [] {
      assert h[|g| - 1] == g[|g| - 1];
    }
  }
}
