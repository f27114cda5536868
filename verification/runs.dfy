/**
 * Whole runs of the change-window reconciler from an empty status: reconciles before the window opens, failed
 * fetches, failed writes and repeated reconciles in any mixture, under a clock that never goes backwards.
 *
 * `History` keeps the steps that were stored after the window opened. `RunsAreHistories` shows nothing else
 * matters: the stored status is always the last one in the history. The theorems about runs are therefore
 * theorems about histories.
 */
module Runs {
  import opened Base
  import opened Model
  import opened Evidence
  import opened Window

  /** One reconcile, and whether its status patch went through. */
  datatype Event = Event(inputs: Inputs, written: bool)

  ghost predicate WellFormed(spec: WindowSpec, evs: seq<Event>)
  {
    && (forall i :: 0 <= i < |evs| ==> |evs[i].inputs.fetched| == |spec.impactedApps| && evs[i].inputs.now > ZERO_TIME)
    && (forall i, j :: 0 <= i < j < |evs| ==> evs[i].inputs.now <= evs[j].inputs.now)
  }

  /** The stored status after a run. */
  function AfterBy(step: Stepper, evs: seq<Event>): Status
  {
    if evs == [] then NEW_STATUS
    else
      var n := |evs| - 1;
      var st := AfterBy(step, evs[..n]);
      var o := step(st, evs[n].inputs);
      if o.Done? && evs[n].written then o.status else st
  }

  function After(env: Env, spec: WindowSpec, evs: seq<Event>): Status { AfterBy(StepperOf(env, spec), evs) }

  /** A reconcile of the open window whose status was stored. */
  datatype Step = Step(
    before: Status,
    inputs: Inputs,
    after: Status,
    attempted: bool,
    reported: bool,
    transition: Option<TimelineEntry>)

  /** The step, if any, that an event adds to the history. */
  function NewStep(st: Status, e: Event, o: Outcome, start: Time): seq<Step>
  {
    if o.Done? && e.written && e.inputs.now >= start
    then [Step(st, e.inputs, o.status, o.attempted, o.reported, o.transition)]
    else []
  }

  function HistoryBy(step: Stepper, start: Time, evs: seq<Event>): seq<Step>
  {
    if evs == [] then []
    else
      var n := |evs| - 1;
      var st := AfterBy(step, evs[..n]);
      HistoryBy(step, start, evs[..n]) + NewStep(st, evs[n], step(st, evs[n].inputs), start)
  }

  function History(env: Env, spec: WindowSpec, evs: seq<Event>): seq<Step>
  {
    HistoryBy(StepperOf(env, spec), spec.startTime, evs)
  }

  lemma {:induction false} OneMoreBy(step: Stepper, start: Time, evs: seq<Event>, e: Event)
    ensures var st := AfterBy(step, evs);
            var o := step(st, e.inputs);
            && AfterBy(step, evs + [e]) == (if o.Done? && e.written then o.status else st)
            && HistoryBy(step, start, evs + [e]) == HistoryBy(step, start, evs) + NewStep(st, e, o, start)
  {
    assert (evs + [e])[..|evs|] == evs;
  }

  const SCHEDULED_STATUS := NEW_STATUS.(phase := Scheduled, overall := Pending)

  function Before(h: seq<Step>, i: nat): Option<Step>
    requires i < |h|
  {
    if i == 0 then None else Some(h[i - 1])
  }

  /** A step takes up where the previous one left off, no earlier, and does what `Reconcile` says. */
  predicate StepOk(env: Env, spec: WindowSpec, prev: Option<Step>, s: Step)
  {
    && |s.inputs.fetched| == |spec.impactedApps|
    && s.inputs.now >= spec.startTime
    && s.inputs.now > ZERO_TIME
    && (prev.None? ==> s.before == NEW_STATUS || s.before == SCHEDULED_STATUS)
    && (prev.Some? ==> s.before == prev.value.after && prev.value.inputs.now <= s.inputs.now)
    && Reconcile(env, spec, s.before, s.inputs) == Done(s.after, s.attempted, s.reported, s.transition)
  }

  function Ok(env: Env, spec: WindowSpec): (Option<Step>, Step) -> bool
  {
    (prev, s) => StepOk(env, spec, prev, s)
  }

  ghost predicate Chain(h: seq<Step>, ok: (Option<Step>, Step) -> bool)
  {
    forall i {:trigger ok(Before(h, i), h[i])} :: 0 <= i < |h| ==> ok(Before(h, i), h[i])
  }

  ghost predicate IsHistory(env: Env, spec: WindowSpec, h: seq<Step>)
  {
    Chain(h, Ok(env, spec))
  }

  lemma {:induction false} ChainGrows(g: seq<Step>, h: seq<Step>, ok: (Option<Step>, Step) -> bool)
    requires Chain(g, ok)
    requires |h| == |g| + 1 && h[..|g|] == g && ok(Before(h, |g|), h[|g|])
    ensures Chain(h, ok)
  {
    forall i | 0 <= i < |h| ensures ok(Before(h, i), h[i]) {
      if i < |g| {
        assert h[i] == g[i] && Before(h, i) == Before(g, i);
        assert ok(Before(g, i), g[i]);
      }
    }
  }

  lemma {:induction false} ChainPrefix(h: seq<Step>, n: nat, ok: (Option<Step>, Step) -> bool)
    requires Chain(h, ok) && n <= |h|
    ensures Chain(h[..n], ok)
  {
    forall i | 0 <= i < n ensures ok(Before(h[..n], i), h[..n][i]) {
      assert h[..n][i] == h[i] && Before(h[..n], i) == Before(h, i);
      assert ok(Before(h, i), h[i]);
    }
  }

  /** Something claimed of histories. */
  type Claim = seq<Step> -> bool

  function Last(g: seq<Step>): Option<Step> { if g == [] then None else Some(g[|g| - 1]) }

  /** One more step keeps the claim. */
  ghost predicate Carries(ok: (Option<Step>, Step) -> bool, claim: Claim)
  {
    forall g, s {:trigger claim(g), ok(Last(g), s)} :: claim(g) && ok(Last(g), s) ==> claim(g + [s])
  }

  lemma {:induction false} ClaimHolds(h: seq<Step>, n: nat, ok: (Option<Step>, Step) -> bool, claim: Claim)
    requires n <= |h| && Chain(h, ok) && Carries(ok, claim) && claim([])
    ensures claim(h[..n])
  {
    if n == 0 {
      assert h[..0] == [];
    } else {
      var front, s := h[..n - 1], h[n - 1];
      ClaimHolds(h, n - 1, ok, claim);
      assert Last(front) == Before(h, n - 1);
      assert ok(Before(h, n - 1), s);
      assert front + [s] == h[..n];
    }
  }

  lemma {:induction false} HistoryStep(env: Env, spec: WindowSpec, h: seq<Step>, i: nat)
    requires IsHistory(env, spec, h) && i < |h|
    ensures StepOk(env, spec, Before(h, i), h[i])
  {
    assert Ok(env, spec)(Before(h, i), h[i]);
  }

  lemma {:induction false} Prefix(env: Env, spec: WindowSpec, h: seq<Step>, n: nat)
    requires IsHistory(env, spec, h) && n <= |h|
    ensures IsHistory(env, spec, h[..n])
  {
    ChainPrefix(h, n, Ok(env, spec));
  }

  // ----- every run is a history -----

  predicate StepOkBy(step: Stepper, start: Time, prev: Option<Step>, s: Step)
  {
    && s.inputs.now >= start
    && s.inputs.now > ZERO_TIME
    && (prev.None? ==> s.before == NEW_STATUS || s.before == SCHEDULED_STATUS)
    && (prev.Some? ==> s.before == prev.value.after && prev.value.inputs.now <= s.inputs.now)
    && step(s.before, s.inputs) == Done(s.after, s.attempted, s.reported, s.transition)
  }

  function OkBy(step: Stepper, start: Time): (Option<Step>, Step) -> bool
  {
    (prev, s) => StepOkBy(step, start, prev, s)
  }

  /** What is stored is the last of the history; before there is one, nothing but the waiting has been noted. */
  ghost predicate StoredLast(evs: seq<Event>, h: seq<Step>, st: Status)
  {
    && (h == [] ==> st in {NEW_STATUS, SCHEDULED_STATUS})
    && (h != [] ==> st == h[|h| - 1].after && evs != [] && h[|h| - 1].inputs.now <= evs[|evs| - 1].inputs.now)
  }

  ghost predicate ReflectsBy(step: Stepper, start: Time, evs: seq<Event>, h: seq<Step>, st: Status)
  {
    Chain(h, OkBy(step, start)) && StoredLast(evs, h, st)
  }

  /** Before the window opens the reconciler notes that it waits, and nothing else. */
  ghost predicate Waits(step: Stepper, start: Time)
  {
    forall st: Status, inp: Inputs {:trigger step(st, inp)} ::
      inp.now < start && step(st, inp).Done? ==> step(st, inp).status == st.(phase := Scheduled, overall := Pending)
  }

  ghost predicate ClockOk(evs: seq<Event>)
  {
    && (forall i :: 0 <= i < |evs| ==> evs[i].inputs.now > ZERO_TIME)
    && (forall i, j :: 0 <= i < j < |evs| ==> evs[i].inputs.now <= evs[j].inputs.now)
  }

  /** A stored step after the window opened leaves the window open: the clock never runs back. */
  lemma {:induction false} StaysOpen(step: Stepper, start: Time, g: seq<Step>)
    requires Chain(g, OkBy(step, start)) && g != []
    ensures g[|g| - 1].inputs.now >= start
  {
    assert OkBy(step, start)(Before(g, |g| - 1), g[|g| - 1]);
  }

  /** The clock of an event that follows these. */
  ghost predicate Follows(evs: seq<Event>, e: Event)
  {
    e.inputs.now > ZERO_TIME && (evs != [] ==> evs[|evs| - 1].inputs.now <= e.inputs.now)
  }

  /** An event that stores a step of the open window extends the history by it. */
  lemma {:induction false} StoredReflected(step: Stepper, start: Time, evs: seq<Event>, e: Event, g: seq<Step>,
                                           st: Status, s: Step)
    requires ReflectsBy(step, start, evs, g, st) && Follows(evs, e)
    requires s.before == st && s.inputs == e.inputs && e.inputs.now >= start
    requires step(st, e.inputs) == Done(s.after, s.attempted, s.reported, s.transition)
    ensures ReflectsBy(step, start, evs + [e], g + [s], s.after)
  {
    var h := g + [s];
    assert h[..|g|] == g && h[|g|] == s;
    assert OkBy(step, start)(Before(h, |g|), s);
    ChainGrows(g, h, OkBy(step, start));
    assert (evs + [e])[|evs|] == e;
  }

  /** Any other event leaves the history alone, and at most notes the waiting. */
  lemma {:induction false} OtherReflected(step: Stepper, start: Time, evs: seq<Event>, e: Event, g: seq<Step>,
                                          st: Status, later: Status)
    requires ReflectsBy(step, start, evs, g, st) && Follows(evs, e)
    requires later == st || (e.inputs.now < start && later == st.(phase := Scheduled, overall := Pending))
    ensures ReflectsBy(step, start, evs + [e], g, later)
  {
    assert (evs + [e])[|evs|] == e;
    if g != [] {
      StaysOpen(step, start, g);
    }
  }

  /** One more event: either the history grows by exactly that step, or the stored status is as before. */
  lemma {:induction false} EventReflected(step: Stepper, start: Time, evs: seq<Event>, e: Event)
    requires Waits(step, start) && Follows(evs, e)
    requires ReflectsBy(step, start, evs, HistoryBy(step, start, evs), AfterBy(step, evs))
    ensures ReflectsBy(step, start, evs + [e], HistoryBy(step, start, evs + [e]), AfterBy(step, evs + [e]))
  {
    var g, st := HistoryBy(step, start, evs), AfterBy(step, evs);
    var o := step(st, e.inputs);
    OneMoreBy(step, start, evs, e);
    if o.Done? && e.written && e.inputs.now >= start {
      var s := Step(st, e.inputs, o.status, o.attempted, o.reported, o.transition);
      StoredReflected(step, start, evs, e, g, st, s);
    } else {
      OtherReflected(step, start, evs, e, g, st, AfterBy(step, evs + [e]));
      assert g + [] == g;
    }
  }

  lemma {:induction false} RunReflected(step: Stepper, start: Time, evs: seq<Event>)
    requires Waits(step, start) && ClockOk(evs)
    ensures ReflectsBy(step, start, evs, HistoryBy(step, start, evs), AfterBy(step, evs))
  {
    if evs != [] {
      var n := |evs| - 1;
      RunReflected(step, start, evs[..n]);
      assert evs[..n] + [evs[n]] == evs;
      if n > 0 {
        assert evs[..n][n - 1] == evs[n - 1];
      }
      EventReflected(step, start, evs[..n], evs[n]);
    }
  }

  lemma {:induction false} ReconcilerWaits(env: Env, spec: WindowSpec)
    ensures Waits(StepperOf(env, spec), spec.startTime)
  {
  }

  /** The two ways to say that a step does what the reconciler says. */
  lemma {:induction false} ReconcilerSteps(env: Env, spec: WindowSpec, prev: Option<Step>, s: Step)
    ensures OkBy(StepperOf(env, spec), spec.startTime)(prev, s) <==> Ok(env, spec)(prev, s)
  {
  }

  lemma {:induction false} ReconcilerChains(env: Env, spec: WindowSpec, h: seq<Step>)
    requires Chain(h, OkBy(StepperOf(env, spec), spec.startTime))
    ensures IsHistory(env, spec, h)
  {
    var ok, okBy := Ok(env, spec), OkBy(StepperOf(env, spec), spec.startTime);
    forall i | 0 <= i < |h| ensures ok(Before(h, i), h[i]) {
      assert okBy(Before(h, i), h[i]);
      ReconcilerSteps(env, spec, Before(h, i), h[i]);
    }
  }

  ghost predicate Reflects(env: Env, spec: WindowSpec, evs: seq<Event>, h: seq<Step>, st: Status)
  {
    IsHistory(env, spec, h) && StoredLast(evs, h, st)
  }

  /** Every run is a history, and its stored status is the last one the history stored. */
  lemma {:induction false} RunsAreHistories(env: Env, spec: WindowSpec, evs: seq<Event>)
    requires WellFormed(spec, evs)
    ensures Reflects(env, spec, evs, History(env, spec, evs), After(env, spec, evs))
  {
    ReconcilerWaits(env, spec);
    RunReflected(StepperOf(env, spec), spec.startTime, evs);
    ReconcilerChains(env, spec, History(env, spec, evs));
  }

  /** The history of a part of a run is a part of its history. */
  lemma {:induction false} HistoryOfPrefix(step: Stepper, start: Time, evs: seq<Event>, m: nat)
    requires m <= |evs|
    ensures HistoryBy(step, start, evs[..m]) <= HistoryBy(step, start, evs)
  {
    if m == |evs| {
      assert evs[..m] == evs;
    } else {
      HistoryOfPrefix(step, start, evs[..|evs| - 1], m);
      assert evs[..|evs| - 1][..m] == evs[..m];
    }
  }

  /** Some reconcile that came before the window opened has been stored. */
  ghost predicate NotedWaiting(start: Time, evs: seq<Event>)
  {
    exists i :: 0 <= i < |evs| && evs[i].written && evs[i].inputs.now < start
  }

  /** A reconcile before the window opens gets through. */
  ghost predicate NotesEarly(step: Stepper, start: Time, evs: seq<Event>)
  {
    forall i, st: Status {:trigger step(st, evs[i].inputs)} ::
      0 <= i < |evs| && evs[i].inputs.now < start ==> step(st, evs[i].inputs).Done?
  }

  lemma {:induction false} NotedStep(start: Time, evs: seq<Event>, e: Event)
    ensures NotedWaiting(start, evs + [e]) <==> NotedWaiting(start, evs) || (e.written && e.inputs.now < start)
  {
    var all := evs + [e];
    assert all[|evs|] == e;
    if NotedWaiting(start, evs) {
      var i :| 0 <= i < |evs| && evs[i].written && evs[i].inputs.now < start;
      assert all[i] == evs[i];
    }
  }

  lemma {:induction false} EarlyFront(step: Stepper, start: Time, evs: seq<Event>)
    requires NotesEarly(step, start, evs) && evs != []
    ensures NotesEarly(step, start, evs[..|evs| - 1])
  {
    var front := evs[..|evs| - 1];
    forall i, st: Status | 0 <= i < |front| && front[i].inputs.now < start ensures step(st, front[i].inputs).Done? {
      assert front[i] == evs[i];
    }
  }

  /** An event that stores no step of the open window at most notes the waiting. */
  lemma {:induction false} WaitingStep(step: Stepper, start: Time, st: Status, e: Event, noted: bool)
    requires Waits(step, start) && (e.inputs.now < start ==> step(st, e.inputs).Done?)
    requires NewStep(st, e, step(st, e.inputs), start) == []
    requires st == if noted then SCHEDULED_STATUS else NEW_STATUS
    ensures (if step(st, e.inputs).Done? && e.written then step(st, e.inputs).status else st)
         == if noted || (e.written && e.inputs.now < start) then SCHEDULED_STATUS else NEW_STATUS
  {
  }

  /** Before the first stored step of the open window, the status shows whether the waiting has been noted. */
  lemma {:induction false} WaitingStatus(step: Stepper, start: Time, evs: seq<Event>)
    requires Waits(step, start) && NotesEarly(step, start, evs) && HistoryBy(step, start, evs) == []
    ensures AfterBy(step, evs) == if NotedWaiting(start, evs) then SCHEDULED_STATUS else NEW_STATUS
  {
    if evs != [] {
      var front, e := evs[..|evs| - 1], evs[|evs| - 1];
      assert front + [e] == evs;
      OneMoreBy(step, start, front, e);
      EarlyFront(step, start, evs);
      WaitingStatus(step, start, front);
      NotedStep(start, front, e);
      WaitingStep(step, start, AfterBy(step, front), e, NotedWaiting(start, front));
    }
  }

  function Previous(st: Status): Phase { if st.baseline.None? then BaselineCaptured else st.phase }

  /** What one stored step does to phase, clocks, timeline and reports. */
  ghost predicate Shape(env: Env, spec: WindowSpec, prev: Option<Step>, s: Step)
  {
    && s.inputs.now >= spec.startTime && s.inputs.now > ZERO_TIME
    && (prev.None? ==> s.before == NEW_STATUS || s.before == SCHEDULED_STATUS)
    && (prev.Some? ==> s.before == prev.value.after && prev.value.inputs.now <= s.inputs.now)
    && PhaseShape(spec, s)
    && ReportShape(s)
    && s.after.signedReport == (if Concluding(s.after.phase)
       then Some(Sign(env, spec, s.after.baseline, s.after.validation.gateResults, s.after.phase, s.inputs.signedAt))
       else s.before.signedReport)
  }

  ghost predicate PhaseShape(spec: WindowSpec, s: Step)
  {
    var d := Decide(spec, s.inputs.now, Previous(s.before), s.after.validation.passed, s.before.stabilizationStartedAt);
    && s.after.phase == d.phase && s.after.overall == d.overall
    && s.after.stabilizationStartedAt == d.stabilizationStartedAt
    && s.after.baseline.Some?
    && (s.before.baseline.Some? ==> s.after.baseline == s.before.baseline)
    && s.transition == (if d.phase != Previous(s.before)
       then Some(TimelineEntry(s.inputs.now, Previous(s.before), d.phase)) else None)
    && s.after.timeline == (if s.transition.Some? then Extend(s.before.timeline, s.transition.value)
       else s.before.timeline)
  }

  ghost predicate ReportShape(s: Step)
  {
    && s.attempted == (s.transition.Some? || s.before.validation != s.after.validation
       || HeartbeatDue(s.before.lastReportedAt, s.inputs.now))
    && s.reported == (s.attempted && s.inputs.publishWorks)
    && s.after.lastReportedAt == (if s.reported then s.inputs.now else s.before.lastReportedAt)
  }

  lemma {:induction false} StepShape(env: Env, spec: WindowSpec, prev: Option<Step>, s: Step)
    requires StepOk(env, spec, prev, s)
    ensures Shape(env, spec, prev, s)
  {
    var m := Merge(spec.impactedApps, s.inputs.fetched, s.before.appStates);
    assert m.Some?;
    assert Proceed(env, spec, s.before, m.value, s.inputs) == Done(s.after, s.attempted, s.reported, s.transition);
  }

  lemma {:induction false} Shapes(env: Env, spec: WindowSpec, h: seq<Step>)
    requires IsHistory(env, spec, h)
    ensures forall i {:trigger Shape(env, spec, Before(h, i), h[i])} ::
        0 <= i < |h|
        ==> Shape(env, spec, Before(h, i), h[i])
  {
    forall i | 0 <= i < |h| ensures Shape(env, spec, Before(h, i), h[i]) {
      HistoryStep(env, spec, h, i);
      StepShape(env, spec, Before(h, i), h[i]);
    }
  }

  lemma {:induction false} ClockRuns(env: Env, spec: WindowSpec, h: seq<Step>, i: nat, j: nat)
    requires IsHistory(env, spec, h) && i <= j < |h|
    ensures h[i].inputs.now <= h[j].inputs.now
  {
    if i < j {
      Shapes(env, spec, h);
      assert Shape(env, spec, Before(h, j), h[j]);
      ClockRuns(env, spec, h, i, j - 1);
    }
  }

  /** The phase a stored step starts from, as its timeline entry records it. */
  function Source(h: seq<Step>, n: nat): Phase
    requires n < |h|
  {
    if n == 0 then BaselineCaptured else h[n - 1].after.phase
  }

  lemma {:induction false} TransitionFacts(env: Env, spec: WindowSpec, h: seq<Step>, n: nat)
    requires IsHistory(env, spec, h) && n < |h|
    ensures var s := h[n];
            && s.transition == (if s.after.phase != Source(h, n)
               then Some(TimelineEntry(s.inputs.now, Source(h, n), s.after.phase)) else None)
            && (n == 0 ==> s.transition.Some?)
            && (n > 0 ==> h[n - 1].inputs.now <= s.inputs.now)
  {
    Shapes(env, spec, h);
    assert Shape(env, spec, Before(h, n), h[n]);
    if n > 0 {
      assert Shape(env, spec, Before(h, n - 1), h[n - 1]);
    }
  }

  lemma {:induction false} TimelineFacts(env: Env, spec: WindowSpec, h: seq<Step>, n: nat)
    requires IsHistory(env, spec, h) && n < |h|
    ensures var s, prior := h[n], if n == 0 then [] else h[n - 1].after.timeline;
            s.after.timeline == if s.transition.Some? then Extend(prior, s.transition.value) else prior
  {
    Shapes(env, spec, h);
    assert Shape(env, spec, Before(h, n), h[n]);
  }
}
